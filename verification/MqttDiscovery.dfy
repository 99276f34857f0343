/**
 Home Assistant discovery over MQTT (internal/mqttdiscovery/service.go). The broker is the map of its retained
 messages; the theorem is that de-duplication and republishing keep that map a function of the service's own maps.
 */
module MqttDiscovery {
  import opened Wrappers
  import opened Sorting
  import opened HostPorts
  import opened StreamNames

  // ---- topics ----

  /** What a camera owns at the broker. */
  datatype Slot =
    | Link | Image | CameraEntity | TemperatureSensor
    | Availability | Frame | SnapshotUrl | TemperatureValue | TemperatureAvailability

  datatype Topic =
    | CameraTopic(objectId: string, slot: Slot)
    | BridgeAvailability | ActiveSessions | Reconnects
    | ConnectionEntity | SessionsEntity | ReconnectsEntity

  const BRIDGE_OBJECT := "motorola_nursery_bridge"

  function Discovery(prefix: string, component: string, objectId: string): string {
    prefix + "/" + component + "/" + objectId + "/config"
  }

  function StateText(base: string, objectId: string, leaf: string): string {
    base + "/camera/" + objectId + "/" + leaf
  }

  function Component(slot: Slot): string {
    match slot
    case Link => "binary_sensor"
    case Image => "image"
    case CameraEntity => "camera"
    case _ => "sensor"
  }

  function Suffix(slot: Slot): string {
    match slot
    case Link => "_link"
    case TemperatureSensor => "_temperature"
    case _ => ""
  }

  function Leaf(slot: Slot): string {
    match slot
    case Availability => "availability"
    case Frame => "image"
    case SnapshotUrl => "snapshot_url"
    case TemperatureValue => "temperature"
    case _ => "temperature_availability"
  }

  predicate IsEntity(slot: Slot) { slot.Link? || slot.Image? || slot.CameraEntity? || slot.TemperatureSensor? }

  predicate IsDiscovery(topic: Topic) {
    if topic.CameraTopic? then IsEntity(topic.slot)
    else topic.ConnectionEntity? || topic.SessionsEntity? || topic.ReconnectsEntity?
  }

  /** The component and the object of a discovery topic. */
  function DiscoveryParts(topic: Topic): (string, string)
    requires IsDiscovery(topic)
  {
    match topic
    case CameraTopic(objectId, slot) => (Component(slot), objectId + Suffix(slot))
    case ConnectionEntity => ("binary_sensor", BRIDGE_OBJECT + "_connection")
    case SessionsEntity => ("sensor", BRIDGE_OBJECT + "_active_sessions")
    case ReconnectsEntity => ("sensor", BRIDGE_OBJECT + "_reconnects")
  }

  /** The topic as the broker sees it. */
  function TopicText(prefix: string, base: string, topic: Topic): string {
    if IsDiscovery(topic) then
      var parts := DiscoveryParts(topic);
      Discovery(prefix, parts.0, parts.1)
    else
      match topic
      case CameraTopic(objectId, slot) => StateText(base, objectId, Leaf(slot))
      case BridgeAvailability => base + "/availability"
      case ActiveSessions => base + "/status/active_sessions"
      case _ => base + "/status/reconnects"
  }

  predicate SlashFree(s: string) { '/' !in s }

  predicate PlainTopic(topic: Topic) { topic.CameraTopic? ==> SlashFree(topic.objectId) }

  lemma SlashAt(head: string, a: string, x: string)
    ensures (head + a + "/" + x)[|head| + |a|] == '/'
    ensures forall k :: 0 <= k < |a| ==> (head + a + "/" + x)[|head| + k] == a[k]
  {
  }

  lemma SlashSplits(head: string, a: string, x: string, b: string, y: string)
    requires SlashFree(a) && SlashFree(b) && head + a + "/" + x == head + b + "/" + y
    ensures a == b && x == y
  {
    SlashAt(head, a, x);
    SlashAt(head, b, y);
    assert !(|a| < |b|) && !(|b| < |a|);
    var left, right := head + a + "/" + x, head + b + "/" + y;
    assert left[|head|..|head| + |a|] == a && right[|head|..|head| + |a|] == b;
    assert left[|head| + |a| + 1..] == x && right[|head| + |b| + 1..] == y;
  }

  lemma SuffixSplits(a: string, x: string, b: string, y: string)
    requires |x| == |y| && a + x == b + y
    ensures a == b && x == y
  {
    assert (a + x)[..|a|] == a && (b + y)[..|a|] == b;
    assert (a + x)[|a|..] == x && (b + y)[|a|..] == y;
  }

  lemma DiscoveryPartsPlain(topic: Topic)
    requires IsDiscovery(topic) && PlainTopic(topic)
    ensures SlashFree(DiscoveryParts(topic).0) && SlashFree(DiscoveryParts(topic).1)
  {
  }

  lemma LastChar(a: string, b: string, x: string, y: string)
    requires x != "" && y != "" && x[|x| - 1] != y[|y| - 1]
    ensures a + x != b + y
  {
    assert (a + x)[|a + x| - 1] == x[|x| - 1];
    assert (b + y)[|b + y| - 1] == y[|y| - 1];
  }

  lemma DiscoverySplits(prefix: string, c: string, o: string, d: string, p: string)
    requires SlashFree(c) && SlashFree(d) && Discovery(prefix, c, o) == Discovery(prefix, d, p)
    ensures c == d && o == p
  {
    hide SlashFree;
    assert Discovery(prefix, c, o) == (prefix + "/") + c + "/" + (o + "/config");
    assert Discovery(prefix, d, p) == (prefix + "/") + d + "/" + (p + "/config");
    SlashSplits(prefix + "/", c, o + "/config", d, p + "/config");
    SuffixSplits(o, "/config", p, "/config");
  }

  lemma DiscoveryDistinct(prefix: string, a: Topic, b: Topic)
    requires IsDiscovery(a) && IsDiscovery(b) && PlainTopic(a) && PlainTopic(b)
    requires Discovery(prefix, DiscoveryParts(a).0, DiscoveryParts(a).1)
          == Discovery(prefix, DiscoveryParts(b).0, DiscoveryParts(b).1)
    ensures a == b
  {
    hide DiscoveryParts, Discovery, SlashFree, IsDiscovery, PlainTopic;
    DiscoveryPartsPlain(a);
    DiscoveryPartsPlain(b);
    DiscoverySplits(prefix, DiscoveryParts(a).0, DiscoveryParts(a).1, DiscoveryParts(b).0, DiscoveryParts(b).1);
    SamePartsSameTopic(a, b);
  }

  lemma SamePartsSameTopic(a: Topic, b: Topic)
    requires IsDiscovery(a) && IsDiscovery(b) && DiscoveryParts(a) == DiscoveryParts(b)
    ensures a == b
  {
    if a.CameraTopic? && b.CameraTopic? {
      assert a.slot == b.slot;
      SuffixSplits(a.objectId, Suffix(a.slot), b.objectId, Suffix(b.slot));
    } else if a.CameraTopic? {
      EntityIsNotBridge(a, b);
    } else if b.CameraTopic? {
      EntityIsNotBridge(b, a);
    } else {
      assert "_connection"[1] == 'c';
      if a != b && a.SessionsEntity? && b.ReconnectsEntity? { LastDiffers(); }
      if a != b && b.SessionsEntity? && a.ReconnectsEntity? { LastDiffers(); }
    }
  }

  lemma LastDiffers()
    ensures BRIDGE_OBJECT + "_active_sessions" != BRIDGE_OBJECT + "_reconnects"
  {
    assert |"_active_sessions"| != |"_reconnects"|;
  }

  lemma EntityIsNotBridge(a: Topic, b: Topic)
    requires a.CameraTopic? && !b.CameraTopic? && IsDiscovery(a) && IsDiscovery(b)
    ensures DiscoveryParts(a) != DiscoveryParts(b)
  {
    if a.slot.Link? { LastChar(a.objectId, BRIDGE_OBJECT, "_link", "_connection"); }
    if a.slot.TemperatureSensor? {
      LastChar(a.objectId, BRIDGE_OBJECT, "_temperature", "_active_sessions");
      LastChar(a.objectId, BRIDGE_OBJECT, "_temperature", "_reconnects");
    }
  }

  /** What follows the base in a state topic. */
  function Rest(topic: Topic): string
    requires !IsDiscovery(topic)
  {
    match topic
    case CameraTopic(objectId, slot) => "/camera/" + objectId + "/" + Leaf(slot)
    case BridgeAvailability => "/availability"
    case ActiveSessions => "/status/active_sessions"
    case _ => "/status/reconnects"
  }

  lemma StateIsRest(prefix: string, base: string, topic: Topic)
    requires !IsDiscovery(topic)
    ensures TopicText(prefix, base, topic) == base + Rest(topic)
    ensures Rest(topic)[|Rest(topic)| - 1] != 'g'
  {
    if topic.CameraTopic? {
      var leaf := Leaf(topic.slot);
      assert TopicText(prefix, base, topic) == base + Rest(topic);
      assert Rest(topic)[|Rest(topic)| - 1] == leaf[|leaf| - 1];
    }
  }

  lemma StateDistinct(a: Topic, b: Topic)
    requires !IsDiscovery(a) && !IsDiscovery(b) && PlainTopic(a) && PlainTopic(b) && Rest(a) == Rest(b)
    ensures a == b
  {
    if a.CameraTopic? && b.CameraTopic? {
      SlashSplits("/camera/", a.objectId, Leaf(a.slot), b.objectId, Leaf(b.slot));
    } else {
      assert Rest(a)[1] == Rest(b)[1] && Rest(a)[8] == Rest(b)[8];
    }
  }

  /** No two topics are the same text, whatever the prefix and the base. */
  lemma TopicsAreDistinct(prefix: string, base: string, a: Topic, b: Topic)
    requires PlainTopic(a) && PlainTopic(b) && TopicText(prefix, base, a) == TopicText(prefix, base, b)
    ensures a == b
  {
    if IsDiscovery(a) && IsDiscovery(b) {
      DiscoveryDistinct(prefix, a, b);
    } else if IsDiscovery(a) {
      DiscoveryIsNotState(prefix, base, a, b);
    } else if IsDiscovery(b) {
      DiscoveryIsNotState(prefix, base, b, a);
    } else {
      StateIsRest(prefix, base, a);
      StateIsRest(prefix, base, b);
      assert (base + Rest(a))[|base|..] == Rest(a) && (base + Rest(b))[|base|..] == Rest(b);
      StateDistinct(a, b);
    }
  }

  lemma DiscoveryIsNotState(prefix: string, base: string, a: Topic, b: Topic)
    requires IsDiscovery(a) && !IsDiscovery(b)
    ensures TopicText(prefix, base, a) != TopicText(prefix, base, b)
  {
    StateIsRest(prefix, base, b);
    var parts := DiscoveryParts(a);
    LastChar(prefix + "/" + parts.0 + "/" + parts.1, base, "/config", Rest(b));
  }

  // ---- object identifiers ----

  function Kept(t: CharTable, c: char): char {
    if t.letterOrDigit(c) || c == '-' || c == '_' then c else '_'
  }

  function TrimUnderscores(s: string): (r: string)
    ensures forall c :: c in r ==> c in s
    decreases |s|
  {
    if s != "" && s[0] == '_' then TrimUnderscores(s[1..])
    else if s != "" && s[|s| - 1] == '_' then TrimUnderscores(s[..|s| - 1])
    else s
  }

  function ObjectId(t: CharTable, id: string): string {
    var result := TrimUnderscores(seq(|id|, i requires 0 <= i < |id| => Kept(t, t.lower(id[i]))));
    if result == "" then "camera" else result
  }

  method ObjectID(t: CharTable, id: string) returns (r: string)
    ensures r == ObjectId(t, id)
  {
    var built := "";
    for i := 0 to |id|
      invariant |built| == i && forall j :: 0 <= j < i ==> built[j] == Kept(t, t.lower(id[j]))
    {
      var c := t.lower(id[i]);
      if t.letterOrDigit(c) || c == '-' || c == '_' {
        built := built + [c];
      } else {
        built := built + "_";
      }
    }
    assert built == seq(|id|, i requires 0 <= i < |id| => Kept(t, t.lower(id[i])));
    r := TrimUnderscores(built);
    if r == "" { r := "camera"; }
  }

  /** So an object is one level of a topic. */
  lemma ObjectIsPlain(t: CharTable, id: string)
    requires !t.letterOrDigit('/')
    ensures ObjectId(t, id) != "" && SlashFree(ObjectId(t, id))
  {
    var kept := seq(|id|, i requires 0 <= i < |id| => Kept(t, t.lower(id[i])));
    assert '/' !in kept;
    assert '/' !in TrimUnderscores(kept);
  }

  // ---- the service and the broker ----

  datatype Camera = Camera(id: string, name: string, model: string, streamURL: string, snapshotURL: string)

  datatype EntityKind = LinkEntity | SnapshotEntity | FrameEntity | TemperatureEntity

  datatype Payload =
    | Entity(kind: EntityKind, id: string, name: string, model: string)
    | BridgeEntity
    | Online | Offline
    | Url(url: string) | Celsius(degrees: real) | Jpeg(bytes: seq<int>) | Count(n: int)

  datatype Status = Status(activeSessions: int, reconnects: int)

  datatype State = State(
    cameras: map<string, Camera>, available: map<string, bool>,
    supported: map<string, bool>, temperatureAvailable: map<string, bool>,
    connected: bool, status: Status, retained: map<Topic, Payload>)

  /** What the service is set up with: the character table of object identifiers, and whether frames are published. */
  datatype Setup = Setup(table: CharTable, frames: bool)

  function On(flags: map<string, bool>, id: string): bool { id in flags && flags[id] }

  function AvailabilityPayload(available: bool): Payload { if available then Online else Offline }

  function Describe(kind: EntityKind, camera: Camera): Payload {
    Entity(kind, camera.id, camera.name, if camera.model == "" then "Nursery Camera" else camera.model)
  }

  /** A retained publish; an empty payload removes what was retained. */
  function Published(retained: map<Topic, Payload>, topic: Topic, payload: Option<Payload>): map<Topic, Payload> {
    if payload.None? then retained - {topic} else retained[topic := payload.value]
  }

  function Lookup(retained: map<Topic, Payload>, topic: Topic): Option<Payload> {
    if topic in retained then Some(retained[topic]) else None
  }

  /** What the broker should retain for a camera, by the service's maps; None where the service leaves it open. */
  function Expected(setup: Setup, s: State, id: string, slot: Slot): Option<Option<Payload>>
    requires id in s.cameras
  {
    var camera := s.cameras[id];
    match slot
    case Link => Some(Some(Describe(LinkEntity, camera)))
    case Availability => Some(Some(AvailabilityPayload(On(s.available, id))))
    case Image => Some(if camera.snapshotURL != "" then Some(Describe(SnapshotEntity, camera)) else None)
    case SnapshotUrl => if camera.snapshotURL != "" then Some(Some(Url(camera.snapshotURL))) else None
    case CameraEntity => Some(if setup.frames then Some(Describe(FrameEntity, camera)) else None)
    case Frame => if setup.frames then None else Some(None)
    case TemperatureSensor => Some(if On(s.supported, id) then Some(Describe(TemperatureEntity, camera)) else None)
    case TemperatureAvailability =>
      Some(if On(s.supported, id) then Some(AvailabilityPayload(On(s.temperatureAvailable, id))) else None)
    case TemperatureValue => if On(s.supported, id) then None else Some(None)
  }

  predicate AgreesAt(setup: Setup, s: State, id: string, slot: Slot)
    requires id in s.cameras
  {
    Expected(setup, s, id, slot).Some? ==>
      Lookup(s.retained, CameraTopic(ObjectId(setup.table, id), slot)) == Expected(setup, s, id, slot).value
  }

  /** The broker retains, for this camera, what the maps say. */
  ghost predicate Agrees(setup: Setup, s: State, id: string)
    requires id in s.cameras
  {
    forall slot :: AgreesAt(setup, s, id, slot)
  }

  // ---- the operations ----

  function Set(s: State, topic: Topic, payload: Option<Payload>): State {
    s.(retained := Published(s.retained, topic, payload))
  }

  function AfterTemperatureEntity(setup: Setup, s: State, camera: Camera, supported: bool, available: bool): State {
    var objectId := ObjectId(setup.table, camera.id);
    if !supported then
      Set(Set(Set(s, CameraTopic(objectId, TemperatureSensor), None), CameraTopic(objectId, TemperatureValue), None),
          CameraTopic(objectId, TemperatureAvailability), None)
    else
      Set(Set(s, CameraTopic(objectId, TemperatureSensor), Some(Describe(TemperatureEntity, camera))),
          CameraTopic(objectId, TemperatureAvailability), Some(AvailabilityPayload(available)))
  }

  function AfterLink(setup: Setup, s: State, camera: Camera): State {
    var objectId := ObjectId(setup.table, camera.id);
    Set(Set(s, CameraTopic(objectId, Link), Some(Describe(LinkEntity, camera))),
        CameraTopic(objectId, Availability), Some(AvailabilityPayload(On(s.available, camera.id))))
  }

  function AfterSnapshot(setup: Setup, s: State, camera: Camera): State {
    var objectId := ObjectId(setup.table, camera.id);
    if camera.snapshotURL != "" then
      Set(Set(s, CameraTopic(objectId, Image), Some(Describe(SnapshotEntity, camera))),
          CameraTopic(objectId, SnapshotUrl), Some(Url(camera.snapshotURL)))
    else Set(s, CameraTopic(objectId, Image), None)
  }

  function AfterFrameEntity(setup: Setup, s: State, camera: Camera): State {
    var objectId := ObjectId(setup.table, camera.id);
    if setup.frames then Set(s, CameraTopic(objectId, CameraEntity), Some(Describe(FrameEntity, camera)))
    else Set(Set(s, CameraTopic(objectId, CameraEntity), None), CameraTopic(objectId, Frame), None)
  }

  /** publishCamera */
  function AfterCamera(setup: Setup, s: State, camera: Camera): State {
    AfterTemperatureEntity(setup,
        AfterFrameEntity(setup, AfterSnapshot(setup, AfterLink(setup, s, camera), camera), camera),
                           camera, On(s.supported, camera.id), On(s.temperatureAvailable, camera.id))
  }

  function AfterCameras(setup: Setup, s: State, cameras: seq<Camera>): State {
    if cameras == [] then s
    else AfterCamera(setup, AfterCameras(setup, s, cameras[..|cameras| - 1]), cameras[|cameras| - 1])
  }

  function AfterStatus(s: State): State {
    Set(Set(s, ActiveSessions, Some(Count(s.status.activeSessions))), Reconnects, Some(Count(s.status.reconnects)))
  }

  function AfterBridge(s: State): State {
    Set(Set(Set(Set(s, BridgeAvailability, Some(Online)), ConnectionEntity, Some(BridgeEntity)),
            SessionsEntity, Some(BridgeEntity)), ReconnectsEntity, Some(BridgeEntity))
  }

  const BY_ID: (Camera, Camera) -> bool := (a: Camera, b: Camera) => TextLe(a.id, b.id)

  /** What can happen to the service. `rtsp`, `http`: whether the URLs of the camera are absolute and of that kind. */
  datatype Operation =
    | Upsert(camera: Camera, rtsp: bool, http: bool)
    | Remove(id: string)
    | SetCameraAvailable(id: string, available: bool)
    | SetTemperatureSupported(id: string, supported: bool)
    | SetTemperatureAvailable(id: string, available: bool)
    | PublishTemperature(id: string, celsius: Option<real>)
    | PublishFrame(id: string, jpeg: seq<int>)
    | PublishStatus(status: Status)
    | Connect(listed: seq<Camera>)
    | Lost
    | Close

  predicate ValidCamera(camera: Camera, rtsp: bool, http: bool) {
    camera.id != "" && camera.name != "" && (camera.streamURL != "" ==> rtsp) && (camera.snapshotURL != "" ==> http)
  }

  /** Only a finite temperature strictly between the limits is published; None is not a number or infinite. */
  predicate Plausible(celsius: Option<real>) { celsius.Some? && 0.0 < celsius.value < 50.0 }

  predicate IsJpeg(bytes: seq<int>) { |bytes| >= 2 && bytes[0] == 0xFF && bytes[1] == 0xD8 }

  /** Whether the operation is accepted rather than refused with an error. */
  predicate Accepted(s: State, op: Operation) {
    match op
    case Upsert(camera, rtsp, http) => ValidCamera(camera, rtsp, http)
    case SetTemperatureSupported(id, _) => id in s.cameras
    case PublishTemperature(_, celsius) => Plausible(celsius)
    case PublishFrame(id, jpeg) => IsJpeg(jpeg) && id in s.cameras
    case _ => true
  }

  function AfterUpsert(setup: Setup, s: State, camera: Camera): State {
    var stored := s.(cameras := s.cameras[camera.id := camera],
                     available := if camera.id in s.available then s.available else s.available[camera.id := true]);
    if s.connected then AfterCamera(setup, stored, camera) else stored
  }

  /** What a removed camera loses. */
  const CLEARED := [Image, CameraEntity, Link, TemperatureSensor, Frame, TemperatureValue, TemperatureAvailability]

  function Cleared(retained: map<Topic, Payload>, objectId: string, slots: seq<Slot>): map<Topic, Payload> {
    if slots == [] then retained
    else Cleared(retained, objectId, slots[..|slots| - 1]) - {CameraTopic(objectId, slots[|slots| - 1])}
  }

  function AfterRemove(setup: Setup, s: State, id: string): State {
    var objectId := ObjectId(setup.table, id);
    var forgotten := s.(cameras := s.cameras - {id}, available := s.available - {id},
                        supported := s.supported - {id}, temperatureAvailable := s.temperatureAvailable - {id});
    if !s.connected then forgotten
    else
      forgotten.(retained := Cleared(forgotten.retained, objectId, CLEARED))
  }

  function AfterCameraAvailable(setup: Setup, s: State, id: string, available: bool): State {
    var stored := s.(available := s.available[id := available]);
    if !s.connected || (id in s.available && s.available[id] == available) then stored
    else Set(stored, CameraTopic(ObjectId(setup.table, id), Availability), Some(AvailabilityPayload(available)))
  }

  function AfterTemperatureSupported(setup: Setup, s: State, id: string, supported: bool): State
    requires id in s.cameras
  {
    var stored := s.(supported := s.supported[id := supported],
                     temperatureAvailable :=
                         if supported then s.temperatureAvailable else s.temperatureAvailable - {id});
    if !s.connected then stored
    else AfterTemperatureEntity(setup, stored, s.cameras[id], supported, On(stored.temperatureAvailable, id))
  }

  function AfterTemperatureAvailable(setup: Setup, s: State, id: string, available: bool): State {
    var stored := if id in s.cameras then s.(temperatureAvailable := s.temperatureAvailable[id := available]) else s;
    if id !in s.cameras || !On(s.supported, id) || !s.connected
       || (id in s.temperatureAvailable && s.temperatureAvailable[id] == available) then stored
    else Set(stored, CameraTopic(ObjectId(setup.table, id), TemperatureAvailability),
        Some(AvailabilityPayload(available)))
  }

  function AfterTemperature(setup: Setup, s: State, id: string, degrees: real): State {
    var stored := if id in s.cameras then s.(temperatureAvailable := s.temperatureAvailable[id := true]) else s;
    if id !in s.cameras || !On(s.supported, id) || !s.connected then stored
    else
      var objectId := ObjectId(setup.table, id);
      Set(Set(stored, CameraTopic(objectId, TemperatureValue), Some(Celsius(degrees))),
          CameraTopic(objectId, TemperatureAvailability), Some(Online))
  }

  function AfterFrame(setup: Setup, s: State, id: string, jpeg: seq<int>): State {
    if !s.connected || !setup.frames then s else Set(s, CameraTopic(ObjectId(setup.table, id), Frame), Some(Jpeg(jpeg)))
  }

  /** The connect handler; `listed` is how the map happens to list its cameras. */
  function AfterConnect(setup: Setup, s: State, listed: seq<Camera>): State {
    AfterStatus(AfterCameras(setup, AfterBridge(s.(connected := true)), Sort(BY_ID, listed)))
  }

  /** The connection breaks, and the broker publishes the will. */
  function AfterLost(s: State): State { Set(s.(connected := false), BridgeAvailability, Some(Offline)) }

  function AfterClose(s: State): State {
    if s.connected then Set(s.(connected := false), BridgeAvailability, Some(Offline)) else s
  }

  function Apply(setup: Setup, s: State, op: Operation): State {
    if !Accepted(s, op) then s
    else
      match op
      case Upsert(camera, _, _) => AfterUpsert(setup, s, camera)
      case Remove(id) => AfterRemove(setup, s, id)
      case SetCameraAvailable(id, available) => AfterCameraAvailable(setup, s, id, available)
      case SetTemperatureSupported(id, supported) => AfterTemperatureSupported(setup, s, id, supported)
      case SetTemperatureAvailable(id, available) => AfterTemperatureAvailable(setup, s, id, available)
      case PublishTemperature(id, celsius) => AfterTemperature(setup, s, id, celsius.value)
      case PublishFrame(id, jpeg) => AfterFrame(setup, s, id, jpeg)
      case PublishStatus(status) =>
        var stored := s.(status := status);
        if s.connected then AfterStatus(stored) else stored
      case Connect(listed) => AfterConnect(setup, s, listed)
      case Lost => AfterLost(s)
      case Close => AfterClose(s)
  }

  // ---- agreement ----

  /** The identifiers in `ids` have different objects. */
  predicate Separate(t: CharTable, ids: set<string>) {
    forall a, b :: a in ids && b in ids && a != b ==> ObjectId(t, a) != ObjectId(t, b)
  }

  /** The operation names no identifier outside `ids`, and a connect lists exactly the registered cameras. */
  predicate Within(s: State, op: Operation, ids: set<string>) {
    match op
    case Upsert(camera, _, _) => camera.id in ids
    case Remove(id) => id in ids
    case SetCameraAvailable(id, _) => id in ids
    case SetTemperatureSupported(id, _) => id in ids
    case SetTemperatureAvailable(id, _) => id in ids
    case PublishTemperature(id, _) => id in ids
    case PublishFrame(id, _) => id in ids
    case Connect(listed) => Lists(s, listed)
    case _ => true
  }

  predicate Lists(s: State, listed: seq<Camera>) {
    && (forall camera :: camera in listed ==> camera.id in s.cameras && s.cameras[camera.id] == camera)
    && (forall id :: id in s.cameras ==> s.cameras[id] in listed)
  }

  /** Cameras are kept under their identifiers, and a registered one has a recorded availability. */
  predicate Tidy(s: State, ids: set<string>) {
    && s.cameras.Keys <= ids && s.cameras.Keys <= s.available.Keys
    && forall id :: id in s.cameras ==> s.cameras[id].id == id
  }

  ghost predicate Sound(setup: Setup, s: State, ids: set<string>) {
    && Tidy(s, ids)
    && (s.connected ==>
          && Lookup(s.retained, BridgeAvailability) == Some(Online)
          && forall id :: id in s.cameras ==> Agrees(setup, s, id))
  }

  // ---- every operation keeps it ----

  /** Only what the broker retains about this object changed. */
  ghost predicate OnlyTouches(s: State, t: State, objectId: string) {
    && t == s.(retained := t.retained)
    && forall topic: Topic :: !(topic.CameraTopic? && topic.objectId == objectId) ==>
        Lookup(t.retained, topic) == Lookup(s.retained, topic)
  }

  /** What one publish changes. */
  lemma SetLookup(s: State, topic: Topic, payload: Option<Payload>, other: Topic)
    ensures Lookup(Set(s, topic, payload).retained, other)
          == if other == topic then payload else Lookup(s.retained, other)
    ensures Set(s, topic, payload) == s.(retained := Set(s, topic, payload).retained)
  {
  }

  predicate Owns(setup: Setup, camera: Camera, topic: Topic) {
    topic.CameraTopic? && topic.objectId == ObjectId(setup.table, camera.id)
  }

  lemma LinkLookup(setup: Setup, s: State, camera: Camera, topic: Topic)
    ensures var t := AfterLink(setup, s, camera);
            && t == s.(retained := t.retained)
            && (!Owns(setup, camera, topic) || !(topic.slot.Link? || topic.slot.Availability?) ==>
                  Lookup(t.retained, topic) == Lookup(s.retained, topic))
            && (Owns(setup, camera, topic) ==>
                  && (topic.slot.Link? ==> Lookup(t.retained, topic) == Some(Describe(LinkEntity, camera)))
                  && (topic.slot.Availability? ==>
                      Lookup(t.retained, topic) == Some(AvailabilityPayload(On(s.available, camera.id)))))
  {
    hide ObjectId, Describe, Lookup, Set, AvailabilityPayload;
    var objectId := ObjectId(setup.table, camera.id);
    var linked := Set(s, CameraTopic(objectId, Link), Some(Describe(LinkEntity, camera)));
    SetLookup(s, CameraTopic(objectId, Link), Some(Describe(LinkEntity, camera)), topic);
    SetLookup(linked, CameraTopic(objectId, Availability), Some(AvailabilityPayload(On(s.available, camera.id))),
        topic);
  }

  lemma SnapshotLookup(setup: Setup, s: State, camera: Camera, topic: Topic)
    ensures var t := AfterSnapshot(setup, s, camera);
            && t == s.(retained := t.retained)
            && (!Owns(setup, camera, topic) || !(topic.slot.Image? || topic.slot.SnapshotUrl?) ==>
                  Lookup(t.retained, topic) == Lookup(s.retained, topic))
            && (Owns(setup, camera, topic) ==>
                  && (topic.slot.Image? ==>
                        Lookup(t.retained, topic)
                            == if camera.snapshotURL != "" then Some(Describe(SnapshotEntity, camera)) else None)
                  && (topic.slot.SnapshotUrl? && camera.snapshotURL != "" ==>
                        Lookup(t.retained, topic) == Some(Url(camera.snapshotURL))))
  {
    hide ObjectId, Describe, Lookup, Set;
    var objectId := ObjectId(setup.table, camera.id);
    var described := Set(s, CameraTopic(objectId, Image), Some(Describe(SnapshotEntity, camera)));
    SetLookup(s, CameraTopic(objectId, Image), Some(Describe(SnapshotEntity, camera)), topic);
    SetLookup(s, CameraTopic(objectId, Image), None, topic);
    SetLookup(described, CameraTopic(objectId, SnapshotUrl), Some(Url(camera.snapshotURL)), topic);
  }

  lemma FrameEntityLookup(setup: Setup, s: State, camera: Camera, topic: Topic)
    ensures var t := AfterFrameEntity(setup, s, camera);
            && t == s.(retained := t.retained)
            && (!Owns(setup, camera, topic) || !(topic.slot.CameraEntity? || topic.slot.Frame?) ==>
                  Lookup(t.retained, topic) == Lookup(s.retained, topic))
            && (Owns(setup, camera, topic) ==>
                  && (topic.slot.CameraEntity? ==>
                        Lookup(t.retained, topic) == if setup.frames then Some(Describe(FrameEntity, camera)) else None)
                  && (topic.slot.Frame? && !setup.frames ==> Lookup(t.retained, topic) == None))
  {
    hide ObjectId, Describe, Lookup, Set;
    var objectId := ObjectId(setup.table, camera.id);
    SetLookup(s, CameraTopic(objectId, CameraEntity), Some(Describe(FrameEntity, camera)), topic);
    SetLookup(s, CameraTopic(objectId, CameraEntity), None, topic);
    SetLookup(Set(s, CameraTopic(objectId, CameraEntity), None), CameraTopic(objectId, Frame), None, topic);
  }

  lemma TemperatureLookup(setup: Setup, s: State, camera: Camera, supported: bool, available: bool, topic: Topic)
    ensures var t := AfterTemperatureEntity(setup, s, camera, supported, available);
            && t == s.(retained := t.retained)
            && (!Owns(setup, camera, topic) || !TemperatureSlot(topic.slot) ==>
                  Lookup(t.retained, topic) == Lookup(s.retained, topic))
            && (Owns(setup, camera, topic) ==>
                  && (topic.slot.TemperatureSensor? ==>
                        Lookup(t.retained, topic)
                            == if supported then Some(Describe(TemperatureEntity, camera)) else None)
                  && (topic.slot.TemperatureAvailability? ==>
                        Lookup(t.retained, topic) == if supported then Some(AvailabilityPayload(available)) else None)
                  && (topic.slot.TemperatureValue? && !supported ==> Lookup(t.retained, topic) == None))
  {
    hide ObjectId, Describe;
  }

  predicate TemperatureSlot(slot: Slot) {
    slot.TemperatureSensor? || slot.TemperatureValue? || slot.TemperatureAvailability?
  }

  lemma CameraLookup(setup: Setup, s: State, camera: Camera, topic: Topic)
    ensures var t := AfterCamera(setup, s, camera);
            && t == s.(retained := t.retained)
            && (!Owns(setup, camera, topic) ==> Lookup(t.retained, topic) == Lookup(s.retained, topic))
            && (Owns(setup, camera, topic) && camera.id in s.cameras && s.cameras[camera.id] == camera ==>
                  AgreesAt(setup, t, camera.id, topic.slot))
  {
    hide ObjectId, Describe, Lookup, AfterLink, AfterSnapshot, AfterFrameEntity, AfterTemperatureEntity,
        AvailabilityPayload;
    var a := AfterLink(setup, s, camera);
    var b := AfterSnapshot(setup, a, camera);
    var c := AfterFrameEntity(setup, b, camera);
    LinkLookup(setup, s, camera, topic);
    SnapshotLookup(setup, a, camera, topic);
    FrameEntityLookup(setup, b, camera, topic);
    TemperatureLookup(setup, c, camera, On(s.supported, camera.id), On(s.temperatureAvailable, camera.id), topic);
  }

  lemma CameraAgrees(setup: Setup, s: State, camera: Camera)
    requires camera.id in s.cameras && s.cameras[camera.id] == camera
    ensures camera.id in AfterCamera(setup, s, camera).cameras
    ensures Agrees(setup, AfterCamera(setup, s, camera), camera.id)
  {
    hide AgreesAt, AfterCamera, ObjectId, Lookup;
    CameraLookup(setup, s, camera, BridgeAvailability);
    forall slot ensures AgreesAt(setup, AfterCamera(setup, s, camera), camera.id, slot) {
      CameraLookup(setup, s, camera, CameraTopic(ObjectId(setup.table, camera.id), slot));
    }
  }

  lemma CameraTouches(setup: Setup, s: State, camera: Camera)
    ensures OnlyTouches(s, AfterCamera(setup, s, camera), ObjectId(setup.table, camera.id))
  {
    hide AgreesAt, AfterCamera, ObjectId, Lookup;
    CameraLookup(setup, s, camera, BridgeAvailability);
    forall topic: Topic | !(topic.CameraTopic? && topic.objectId == ObjectId(setup.table, camera.id))
      ensures Lookup(AfterCamera(setup, s, camera).retained, topic) == Lookup(s.retained, topic)
    {
      CameraLookup(setup, s, camera, topic);
    }
  }

  /** What a camera's agreement rests on. */
  ghost predicate SameView(setup: Setup, s: State, t: State, id: string) {
    && id in s.cameras && id in t.cameras && t.cameras[id] == s.cameras[id]
    && On(t.available, id) == On(s.available, id) && On(t.supported, id) == On(s.supported, id)
    && On(t.temperatureAvailable, id) == On(s.temperatureAvailable, id)
    && forall slot :: Lookup(t.retained, CameraTopic(ObjectId(setup.table, id), slot))
        == Lookup(s.retained, CameraTopic(ObjectId(setup.table, id), slot))
  }

  lemma SameViewAgrees(setup: Setup, s: State, t: State, id: string)
    requires SameView(setup, s, t, id) && Agrees(setup, s, id)
    ensures Agrees(setup, t, id)
  {
    hide ObjectId, Describe;
    forall slot ensures AgreesAt(setup, t, id, slot) {
      assert AgreesAt(setup, s, id, slot);
    }
  }

  lemma UpsertSound(setup: Setup, s: State, ids: set<string>, camera: Camera)
    requires Sound(setup, s, ids) && Separate(setup.table, ids) && camera.id in ids
    ensures Sound(setup, AfterUpsert(setup, s, camera), ids)
  {
    hide ObjectId, AgreesAt, AfterCamera;
    var stored := s.(cameras := s.cameras[camera.id := camera],
                     available := if camera.id in s.available then s.available else s.available[camera.id := true]);
    if s.connected {
      var t := AfterUpsert(setup, s, camera);
      CameraTouches(setup, stored, camera);
      CameraAgrees(setup, stored, camera);
      forall id | id in t.cameras ensures Agrees(setup, t, id) {
        if id != camera.id {
          assert Agrees(setup, s, id) && SameView(setup, s, t, id);
          SameViewAgrees(setup, s, t, id);
        }
      }
    }
  }

  lemma {:induction false} ClearedLookup(
      retained: map<Topic, Payload>, objectId: string, slots: seq<Slot>, topic: Topic)
    ensures Lookup(Cleared(retained, objectId, slots), topic)
         == if topic.CameraTopic? && topic.objectId == objectId && topic.slot in slots
            then None else Lookup(retained, topic)
    decreases |slots|
  {
    if slots == [] {
    } else {
      ClearedLookup(retained, objectId, slots[..|slots| - 1], topic);
      assert slots == slots[..|slots| - 1] + [slots[|slots| - 1]];
    }
  }

  lemma RemoveSound(setup: Setup, s: State, ids: set<string>, gone: string)
    requires Sound(setup, s, ids) && Separate(setup.table, ids) && gone in ids
    ensures Sound(setup, AfterRemove(setup, s, gone), ids)
  {
    hide ObjectId, AgreesAt, Lookup, Cleared;
    var t := AfterRemove(setup, s, gone);
    if s.connected {
      forall topic { ClearedLookup(s.retained, ObjectId(setup.table, gone), CLEARED, topic); }
      forall id | id in t.cameras ensures Agrees(setup, t, id) {
        assert SameView(setup, s, t, id);
        SameViewAgrees(setup, s, t, id);
      }
    }
  }

  /** An operation on one camera that leaves the others alone. */
  lemma OneSound(setup: Setup, s: State, t: State, ids: set<string>, id: string)
    requires Sound(setup, s, ids) && Separate(setup.table, ids) && id in ids
    requires t.connected == s.connected && t.cameras == s.cameras && s.available.Keys <= t.available.Keys
    requires Lookup(t.retained, BridgeAvailability) == Lookup(s.retained, BridgeAvailability)
    requires forall other, slot :: other != ObjectId(setup.table, id) ==>
               Lookup(t.retained, CameraTopic(other, slot)) == Lookup(s.retained, CameraTopic(other, slot))
    requires forall other :: other != id ==>
               On(t.available, other) == On(s.available, other) && On(t.supported, other) == On(s.supported, other)
               && On(t.temperatureAvailable, other) == On(s.temperatureAvailable, other)
    requires id in s.cameras && s.connected ==> Agrees(setup, t, id)
    ensures Sound(setup, t, ids)
  {
    hide ObjectId, AgreesAt, On, Lookup;
    if t.connected {
      forall other | other in t.cameras ensures Agrees(setup, t, other) {
        if other != id {
          assert Agrees(setup, s, other) && SameView(setup, s, t, other);
          SameViewAgrees(setup, s, t, other);
        }
      }
    }
  }

  lemma CameraAvailableSound(setup: Setup, s: State, ids: set<string>, id: string, available: bool)
    requires Sound(setup, s, ids) && Separate(setup.table, ids) && id in ids
    ensures Sound(setup, AfterCameraAvailable(setup, s, id, available), ids)
  {
    hide ObjectId, Describe, Separate, Lookup, Set;
    var t := AfterCameraAvailable(setup, s, id, available);
    var topic := CameraTopic(ObjectId(setup.table, id), Availability);
    var stored := s.(available := s.available[id := available]);
    forall other { SetLookup(stored, topic, Some(AvailabilityPayload(available)), other); }
    if id in s.cameras && s.connected {
      forall slot ensures AgreesAt(setup, t, id, slot) { assert AgreesAt(setup, s, id, slot); }
    }
    OneSound(setup, s, t, ids, id);
  }

  lemma TemperatureEntityAgrees(setup: Setup, s: State, id: string, slot: Slot)
    requires id in s.cameras && s.cameras[id].id == id && (!TemperatureSlot(slot) ==> AgreesAt(setup, s, id, slot))
    ensures var t :=
              AfterTemperatureEntity(setup, s, s.cameras[id], On(s.supported, id), On(s.temperatureAvailable, id));
            t == s.(retained := t.retained) && AgreesAt(setup, t, id, slot)
  {
    hide ObjectId, Describe;
  }

  lemma TemperatureSupportedSound(setup: Setup, s: State, ids: set<string>, id: string, supported: bool)
    requires Sound(setup, s, ids) && Separate(setup.table, ids) && id in ids && id in s.cameras
    ensures Sound(setup, AfterTemperatureSupported(setup, s, id, supported), ids)
  {
    hide ObjectId, Describe;
    var t := AfterTemperatureSupported(setup, s, id, supported);
    if s.connected {
      var stored := s.(supported := t.supported, temperatureAvailable := t.temperatureAvailable);
      forall slot ensures AgreesAt(setup, t, id, slot) {
        assert AgreesAt(setup, s, id, slot);
        TemperatureEntityAgrees(setup, stored, id, slot);
      }
    }
    OneSound(setup, s, t, ids, id);
  }

  lemma TemperatureAvailableSound(setup: Setup, s: State, ids: set<string>, id: string, available: bool)
    requires Sound(setup, s, ids) && Separate(setup.table, ids) && id in ids
    ensures Sound(setup, AfterTemperatureAvailable(setup, s, id, available), ids)
  {
    hide ObjectId, Describe;
    var t := AfterTemperatureAvailable(setup, s, id, available);
    if id in s.cameras && s.connected {
      forall slot ensures AgreesAt(setup, t, id, slot) { assert AgreesAt(setup, s, id, slot); }
    }
    OneSound(setup, s, t, ids, id);
  }

  lemma TemperatureSound(setup: Setup, s: State, ids: set<string>, id: string, degrees: real)
    requires Sound(setup, s, ids) && Separate(setup.table, ids) && id in ids
    ensures Sound(setup, AfterTemperature(setup, s, id, degrees), ids)
  {
    hide ObjectId, Describe;
    var t := AfterTemperature(setup, s, id, degrees);
    if id in s.cameras && s.connected {
      forall slot ensures AgreesAt(setup, t, id, slot) { assert AgreesAt(setup, s, id, slot); }
    }
    OneSound(setup, s, t, ids, id);
  }

  lemma FrameSound(setup: Setup, s: State, ids: set<string>, id: string, jpeg: seq<int>)
    requires Sound(setup, s, ids) && Separate(setup.table, ids) && id in ids
    ensures Sound(setup, AfterFrame(setup, s, id, jpeg), ids)
  {
    hide ObjectId, Describe;
    var t := AfterFrame(setup, s, id, jpeg);
    if id in s.cameras && s.connected {
      forall slot ensures AgreesAt(setup, t, id, slot) { assert AgreesAt(setup, s, id, slot); }
    }
    OneSound(setup, s, t, ids, id);
  }

  /** Cameras published one after the other all agree in the end: none disturbs another. */
  lemma {:induction false} CamerasAgree(setup: Setup, s: State, ids: set<string>, cameras: seq<Camera>)
    requires Separate(setup.table, ids) && Tidy(s, ids)
    requires forall camera :: camera in cameras ==> camera.id in s.cameras && s.cameras[camera.id] == camera
    ensures var t := AfterCameras(setup, s, cameras);
            && t == s.(retained := t.retained)
            && (forall topic: Topic :: !topic.CameraTopic? ==> Lookup(t.retained, topic) == Lookup(s.retained, topic))
            && forall camera :: camera in cameras ==> Agrees(setup, t, camera.id)
    decreases |cameras|
  {
    hide ObjectId, AgreesAt, AfterCamera, Lookup;
    if cameras == [] {
    } else {
      var rest, last := cameras[..|cameras| - 1], cameras[|cameras| - 1];
      CamerasAgree(setup, s, ids, rest);
      var before := AfterCameras(setup, s, rest);
      var t := AfterCameras(setup, s, cameras);
      CameraTouches(setup, before, last);
      CameraAgrees(setup, before, last);
      forall camera | camera in cameras ensures Agrees(setup, t, camera.id) {
        if camera != last {
          assert camera in rest;
          assert camera.id != last.id;
          assert SameView(setup, before, t, camera.id);
          SameViewAgrees(setup, before, t, camera.id);
        }
      }
    }
  }

  lemma BridgeLookup(s: State, topic: Topic)
    ensures AfterBridge(s) == s.(retained := AfterBridge(s).retained)
    ensures AfterStatus(s) == s.(retained := AfterStatus(s).retained)
    ensures topic.CameraTopic? ==> Lookup(AfterBridge(s).retained, topic) == Lookup(s.retained, topic)
    ensures topic.CameraTopic? || topic.BridgeAvailability? ==>
          Lookup(AfterStatus(s).retained, topic) == Lookup(s.retained, topic)
    ensures Lookup(AfterBridge(s).retained, BridgeAvailability) == Some(Online)
  {
  }

  lemma ConnectSound(setup: Setup, s: State, ids: set<string>, listed: seq<Camera>)
    requires Sound(setup, s, ids) && Separate(setup.table, ids) && Lists(s, listed)
    ensures Sound(setup, AfterConnect(setup, s, listed), ids)
  {
    hide ObjectId, AgreesAt, Sort, Separate, AfterCameras, AfterBridge, AfterStatus, Lookup;
    var begun := AfterBridge(s.(connected := true));
    var sorted := Sort(BY_ID, listed);
    SortKeepsElements(BY_ID, listed);
    BridgeLookup(s.(connected := true), BridgeAvailability);
    CamerasAgree(setup, begun, ids, sorted);
    var cameras := AfterCameras(setup, begun, sorted);
    var t := AfterConnect(setup, s, listed);
    BridgeLookup(cameras, BridgeAvailability);
    forall id | id in t.cameras ensures Agrees(setup, t, id) {
      assert s.cameras[id] in sorted;
      forall slot { BridgeLookup(cameras, CameraTopic(ObjectId(setup.table, id), slot)); }
      SameViewAgrees(setup, cameras, t, id);
    }
  }

  lemma BridgeSound(setup: Setup, s: State, t: State, ids: set<string>)
    requires Sound(setup, s, ids) && t.cameras == s.cameras && t.available == s.available
    requires t.connected ==>
          s.connected && t.supported == s.supported && t.temperatureAvailable == s.temperatureAvailable
    requires t.connected ==>
          forall topic: Topic :: topic.CameraTopic? || topic == BridgeAvailability ==>
            Lookup(t.retained, topic) == Lookup(s.retained, topic)
    ensures Sound(setup, t, ids)
  {
    hide ObjectId, AgreesAt, Lookup, On;
    if t.connected {
      forall id | id in t.cameras ensures Agrees(setup, t, id) {
        assert SameView(setup, s, t, id);
        SameViewAgrees(setup, s, t, id);
      }
    }
  }

  lemma ApplySound(setup: Setup, s: State, ids: set<string>, op: Operation)
    requires Sound(setup, s, ids) && Separate(setup.table, ids) && Within(s, op, ids)
    ensures Sound(setup, Apply(setup, s, op), ids)
  {
    hide Sound, Separate, ObjectId, AfterUpsert, AfterRemove, AfterCameraAvailable, AfterTemperatureSupported;
    hide AfterTemperatureAvailable, AfterTemperature, AfterFrame, AfterConnect;
    if Accepted(s, op) {
      match op
      case Upsert(camera, _, _) => UpsertSound(setup, s, ids, camera);
      case Remove(id) => RemoveSound(setup, s, ids, id);
      case SetCameraAvailable(id, available) => CameraAvailableSound(setup, s, ids, id, available);
      case SetTemperatureSupported(id, supported) => TemperatureSupportedSound(setup, s, ids, id, supported);
      case SetTemperatureAvailable(id, available) => TemperatureAvailableSound(setup, s, ids, id, available);
      case PublishTemperature(id, celsius) => TemperatureSound(setup, s, ids, id, celsius.value);
      case PublishFrame(id, jpeg) => FrameSound(setup, s, ids, id, jpeg);
      case PublishStatus(status) => BridgeSound(setup, s, Apply(setup, s, op), ids);
      case Connect(listed) => ConnectSound(setup, s, ids, listed);
      case Lost => BridgeSound(setup, s, AfterLost(s), ids);
      case Close => BridgeSound(setup, s, AfterClose(s), ids);
    }
  }

  // ---- runs ----

  /** The service begins with empty maps, whatever the broker has retained from before. */
  function Fresh(retained: map<Topic, Payload>): State {
    State(map[], map[], map[], map[], false, Status(0, 0), retained)
  }

  predicate Run(setup: Setup, s: State, ops: seq<Operation>, ids: set<string>, end: State)
    decreases |ops|
  {
    if ops == [] then s == end
    else Within(s, ops[0], ids) && Run(setup, Apply(setup, s, ops[0]), ops[1..], ids, end)
  }

  lemma {:induction false} RunSound(setup: Setup, s: State, ops: seq<Operation>, ids: set<string>, end: State)
    requires Sound(setup, s, ids) && Separate(setup.table, ids) && Run(setup, s, ops, ids, end)
    ensures Sound(setup, end, ids)
    decreases |ops|
  {
    hide Sound, Separate, Apply, Within;
    if ops == [] {
    } else {
      ApplySound(setup, s, ids, ops[0]);
      RunSound(setup, Apply(setup, s, ops[0]), ops[1..], ids, end);
    }
  }

  /**
   After any run of operations, disconnects and reconnects, while connected the broker retains for every registered
   camera exactly what the service's maps say: de-duplication and republishing lose nothing.
   */
  lemma BrokerFollowsTheMaps(
      setup: Setup, retained: map<Topic, Payload>, ops: seq<Operation>, ids: set<string>, end: State)
    requires Separate(setup.table, ids) && Run(setup, Fresh(retained), ops, ids, end) && end.connected
    ensures Lookup(end.retained, BridgeAvailability) == Some(Online)
    ensures forall id, slot :: id in end.cameras && Expected(setup, end, id, slot).Some? ==>
              Lookup(end.retained, CameraTopic(ObjectId(setup.table, id), slot)) == Expected(setup, end, id, slot).value
  {
    RunSound(setup, Fresh(retained), ops, ids, end);
    hide ObjectId, Expected;
    forall id, slot | id in end.cameras && Expected(setup, end, id, slot).Some?
      ensures Lookup(end.retained, CameraTopic(ObjectId(setup.table, id), slot)) == Expected(setup, end, id, slot).value
    {
      assert Agrees(setup, end, id);
      assert AgreesAt(setup, end, id, slot);
    }
  }

  ghost predicate BrokerAgrees(setup: Setup, s: State) {
    s.connected ==>
      Lookup(s.retained, BridgeAvailability) == Some(Online) && forall id :: id in s.cameras ==> Agrees(setup, s, id)
  }

  function Plain(id: string): Camera { Camera(id, "camera", "", "", "") }

  /** Connect, register both, remove `a`: when they share an object, `b` loses its link entity. */
  lemma SharedObjectBreaks(setup: Setup, retained: map<Topic, Payload>, ids: set<string>, a: string, b: string)
    returns (ops: seq<Operation>, end: State)
    requires a in ids && b in ids && a != b && b != "" && ObjectId(setup.table, a) == ObjectId(setup.table, b)
    ensures Run(setup, Fresh(retained), ops, ids, end) && !BrokerAgrees(setup, end)
  {
    hide ObjectId, Apply, Run, BrokerAgrees, Fresh;
    var connected, one, both;
    ops, connected := ConnectsFresh(setup, retained, ids);
    ops, one := Registers(setup, Fresh(retained), ops, ids, connected, a);
    ops, both := Registers(setup, Fresh(retained), ops, ids, one, b);
    RunMore(setup, Fresh(retained), ops, ids, both, Remove(a));
    ops, end := ops + [Remove(a)], Apply(setup, both, Remove(a));
    LinkIsLost(setup, both, a, b);
  }

  lemma ConnectsFresh(setup: Setup, retained: map<Topic, Payload>, ids: set<string>)
    returns (ops: seq<Operation>, end: State)
    ensures Run(setup, Fresh(retained), ops, ids, end) && end.connected
  {
    ConnectNothing(setup, Fresh(retained));
    end := Apply(setup, Fresh(retained), Connect([]));
    assert end.connected;
    hide Apply, Run;
    RunNothing(setup, Fresh(retained), ids);
    RunMore(setup, Fresh(retained), [], ids, Fresh(retained), Connect([]));
    ops := [] + [Connect([])];
  }

  lemma Registers(setup: Setup, s: State, ops: seq<Operation>, ids: set<string>, mid: State, id: string)
    returns (more: seq<Operation>, end: State)
    requires Run(setup, s, ops, ids, mid) && mid.connected && id in ids
    ensures Run(setup, s, more, ids, end) && end.connected
    ensures mid.cameras.Keys <= end.cameras.Keys && (id != "" ==> id in end.cameras)
  {
    hide Apply, Run;
    UpsertRegisters(setup, mid, id);
    more, end := ops + [Upsert(Plain(id), true, true)], Apply(setup, mid, Upsert(Plain(id), true, true));
    RunMore(setup, s, ops, ids, mid, Upsert(Plain(id), true, true));
  }

  /** Registering a camera keeps the connection and the cameras there are; only the empty identifier is refused. */
  lemma UpsertRegisters(setup: Setup, s: State, id: string)
    requires s.connected
    ensures var t := Apply(setup, s, Upsert(Plain(id), true, true));
            t.connected && s.cameras.Keys <= t.cameras.Keys && (id != "" ==> id in t.cameras)
  {
    var camera := Plain(id);
    var available := if id in s.available then s.available else s.available[id := true];
    var stored := s.(cameras := s.cameras[id := camera], available := available);
    CameraLookup(setup, stored, camera, BridgeAvailability);
    hide AfterCamera, ObjectId, Lookup;
  }

  lemma LinkIsLost(setup: Setup, s: State, a: string, b: string)
    requires s.connected && b in s.cameras && a != b && ObjectId(setup.table, a) == ObjectId(setup.table, b)
    ensures !BrokerAgrees(setup, Apply(setup, s, Remove(a)))
  {
    hide ObjectId, Lookup, Cleared;
    var end := Apply(setup, s, Remove(a));
    RemoveClears(setup, s, a, Link);
    assert b in end.cameras && !AgreesAt(setup, end, b, Link);
  }

  lemma RunNothing(setup: Setup, s: State, ids: set<string>)
    ensures Run(setup, s, [], ids, s)
  {
  }

  lemma {:induction false} RunMore(
      setup: Setup, s: State, ops: seq<Operation>, ids: set<string>, mid: State, op: Operation)
    requires Run(setup, s, ops, ids, mid) && Within(mid, op, ids)
    ensures Run(setup, s, ops + [op], ids, Apply(setup, mid, op))
    decreases |ops|
  {
    hide Apply, Within;
    if ops == [] {
      assert (ops + [op])[0] == op && (ops + [op])[1..] == [];
    } else {
      assert (ops + [op])[0] == ops[0] && (ops + [op])[1..] == ops[1..] + [op];
      RunMore(setup, Apply(setup, s, ops[0]), ops[1..], ids, mid, op);
    }
  }

  lemma ConnectNothing(setup: Setup, s: State)
    requires s.cameras == map[]
    ensures var t := AfterConnect(setup, s, []);
            t.connected && t.cameras == map[] && t.available == s.available && t.supported == s.supported
                && t.temperatureAvailable == s.temperatureAvailable
  {
    assert Sort(BY_ID, []) == [];
  }

  /** Agreement in all runs over some identifiers is exactly their having different objects. */
  lemma AgreementNeedsSeparateObjects(setup: Setup, retained: map<Topic, Payload>, ids: set<string>)
    ensures Separate(setup.table, ids) <==>
          forall ops, end :: Run(setup, Fresh(retained), ops, ids, end) ==> BrokerAgrees(setup, end)
  {
    hide Run, BrokerAgrees, ObjectId;
    if Separate(setup.table, ids) {
      forall ops, end | Run(setup, Fresh(retained), ops, ids, end) ensures BrokerAgrees(setup, end) {
        FreshAgrees(setup, retained, ops, ids, end);
      }
    } else {
      var a, b :| a in ids && b in ids && a != b && ObjectId(setup.table, a) == ObjectId(setup.table, b);
      var first, second := if b != "" then a else b, if b != "" then b else a;
      var ops, end := SharedObjectBreaks(setup, retained, ids, first, second);
      assert !(Run(setup, Fresh(retained), ops, ids, end) ==> BrokerAgrees(setup, end));
    }
  }

  lemma FreshAgrees(setup: Setup, retained: map<Topic, Payload>, ops: seq<Operation>, ids: set<string>, end: State)
    requires Separate(setup.table, ids) && Run(setup, Fresh(retained), ops, ids, end)
    ensures BrokerAgrees(setup, end)
  {
    RunSound(setup, Fresh(retained), ops, ids, end);
  }

  /** Remove clears the discovery topics and the media, while connected, and leaves the availability and the URL. */
  lemma RemoveClears(setup: Setup, s: State, id: string, slot: Slot)
    ensures var after := Lookup(AfterRemove(setup, s, id).retained, CameraTopic(ObjectId(setup.table, id), slot));
            after == if s.connected && !slot.Availability? && !slot.SnapshotUrl? then None
                     else Lookup(s.retained, CameraTopic(ObjectId(setup.table, id), slot))
  {
    hide ObjectId;
    ClearedLookup(s.retained, ObjectId(setup.table, id), CLEARED, CameraTopic(ObjectId(setup.table, id), slot));
    assert slot in CLEARED <==> !slot.Availability? && !slot.SnapshotUrl? by {
      assert CLEARED[0] == Image && CLEARED[1] == CameraEntity && CLEARED[2] == Link && CLEARED[3] == TemperatureSensor
          && CLEARED[4] == Frame && CLEARED[5] == TemperatureValue && CLEARED[6] == TemperatureAvailability;
    }
  }

  /** A camera registered again keeps its availability, and a new one begins as available, also at the broker. */
  lemma UpsertKeepsAvailability(setup: Setup, s: State, camera: Camera)
    ensures var t := AfterUpsert(setup, s, camera);
            && On(t.available, camera.id) == (camera.id in s.available ==> s.available[camera.id])
            && (s.connected ==> Lookup(t.retained, CameraTopic(ObjectId(setup.table, camera.id), Availability))
                                == Some(if camera.id in s.available ==> s.available[camera.id]
                                        then Online else Offline))
  {
    hide AfterCamera, ObjectId, Lookup;
    var stored := s.(cameras := s.cameras[camera.id := camera],
                     available := if camera.id in s.available then s.available else s.available[camera.id := true]);
    CameraLookup(setup, stored, camera, CameraTopic(ObjectId(setup.table, camera.id), Availability));
  }

  /** Retiring the temperature of a camera forgets its availability: supported again, it begins as unavailable. */
  lemma TemperatureStartsOffline(setup: Setup, s: State, id: string)
    requires id in s.cameras && s.cameras[id].id == id && s.connected
    ensures var t := AfterTemperatureSupported(setup, AfterTemperatureSupported(setup, s, id, false), id, true);
            && On(t.supported, id) && !On(t.temperatureAvailable, id)
            && Lookup(t.retained, CameraTopic(ObjectId(setup.table, id), TemperatureAvailability)) == Some(Offline)
            && Lookup(t.retained, CameraTopic(ObjectId(setup.table, id), TemperatureSensor))
                == Some(Describe(TemperatureEntity, s.cameras[id]))
  {
    hide ObjectId, Describe, Lookup, AfterTemperatureEntity;
    var off := s.(supported := s.supported[id := false], temperatureAvailable := s.temperatureAvailable - {id});
    var retired := AfterTemperatureSupported(setup, s, id, false);
    TemperatureLookup(setup, off, s.cameras[id], false, false,
        CameraTopic(ObjectId(setup.table, id), TemperatureSensor));
    var on := retired.(supported := retired.supported[id := true]);
    TemperatureLookup(setup, on, s.cameras[id], true, false, CameraTopic(ObjectId(setup.table, id), TemperatureSensor));
    TemperatureLookup(setup, on, s.cameras[id], true, false,
        CameraTopic(ObjectId(setup.table, id), TemperatureAvailability));
  }

  // ---- the object ----

  /** The Service with its maps; `retained` is the broker's side of its client. */
  class Service {
    const setup: Setup
    var cameras: map<string, Camera>
    var available: map<string, bool>
    var temperatureSupported: map<string, bool>
    var temperatureAvailable: map<string, bool>
    var connected: bool
    var status: Status
    var retained: map<Topic, Payload>

    constructor (setup: Setup, retained: map<Topic, Payload>)
      ensures this.setup == setup && View() == Fresh(retained)
    {
      this.setup := setup;
      cameras, available, temperatureSupported, temperatureAvailable := map[], map[], map[], map[];
      connected, status, this.retained := false, Status(0, 0), retained;
    }

    function View(): State
      reads this
    {
      State(cameras, available, temperatureSupported, temperatureAvailable, connected, status, retained)
    }

    method Publish(topic: Topic, payload: Option<Payload>)
      modifies this`retained
      ensures View() == Set(old(View()), topic, payload)
    {
      match payload {
        case Some(bytes) => retained := retained[topic := bytes];
        case None => retained := retained - {topic};
      }
    }

    method PublishTemperatureEntity(camera: Camera, supported: bool, usable: bool)
      modifies this`retained
      ensures View() == AfterTemperatureEntity(setup, old(View()), camera, supported, usable)
    {
      hide Set;
      var name := ObjectID(setup.table, camera.id);
      if !supported {
        Publish(CameraTopic(name, TemperatureSensor), None);
        Publish(CameraTopic(name, TemperatureValue), None);
        Publish(CameraTopic(name, TemperatureAvailability), None);
        return;
      }
      Publish(CameraTopic(name, TemperatureSensor), Some(Describe(TemperatureEntity, camera)));
      Publish(CameraTopic(name, TemperatureAvailability), Some(AvailabilityPayload(usable)));
    }

    method PublishCamera(camera: Camera)
      modifies this`retained
      ensures View() == AfterCamera(setup, old(View()), camera)
    {
      var name := ObjectID(setup.table, camera.id);
      hide ObjectId, Describe, Published;
      Publish(CameraTopic(name, Link), Some(Describe(LinkEntity, camera)));
      Publish(CameraTopic(name, Availability), Some(AvailabilityPayload(On(available, camera.id))));
      if camera.snapshotURL != "" {
        Publish(CameraTopic(name, Image), Some(Describe(SnapshotEntity, camera)));
        Publish(CameraTopic(name, SnapshotUrl), Some(Url(camera.snapshotURL)));
      } else {
        Publish(CameraTopic(name, Image), None);
      }
      if setup.frames {
        Publish(CameraTopic(name, CameraEntity), Some(Describe(FrameEntity, camera)));
      } else {
        Publish(CameraTopic(name, CameraEntity), None);
        Publish(CameraTopic(name, Frame), None);
      }
      PublishTemperatureEntity(camera, On(temperatureSupported, camera.id), On(temperatureAvailable, camera.id));
    }

    method PublishStatusTopics()
      modifies this`retained
      ensures View() == AfterStatus(old(View()))
    {
      Publish(ActiveSessions, Some(Count(status.activeSessions)));
      Publish(Reconnects, Some(Count(status.reconnects)));
    }

    method Upsert(camera: Camera, rtsp: bool, http: bool) returns (ok: bool)
      modifies this`cameras, this`available, this`retained
      ensures ok == Accepted(old(View()), Operation.Upsert(camera, rtsp, http))
      ensures View() == Apply(setup, old(View()), Operation.Upsert(camera, rtsp, http))
    {
      hide AfterCamera;
      if camera.id == "" || camera.name == "" { return false; }
      if camera.streamURL != "" && !rtsp { return false; }
      if camera.snapshotURL != "" && !http { return false; }
      cameras := cameras[camera.id := camera];
      if camera.id !in available { available := available[camera.id := true]; }
      if connected { PublishCamera(camera); }
      return true;
    }

    method Remove(id: string)
      modifies this`cameras, this`available, this`temperatureSupported, this`temperatureAvailable, this`retained
      ensures View() == Apply(setup, old(View()), Operation.Remove(id))
    {
      cameras, available := cameras - {id}, available - {id};
      temperatureSupported, temperatureAvailable := temperatureSupported - {id}, temperatureAvailable - {id};
      if !connected { return; }
      var name := ObjectID(setup.table, id);
      hide ObjectId;
      for i := 0 to |CLEARED|
        invariant retained == Cleared(old(retained), name, CLEARED[..i])
        invariant View() == AfterRemove(setup, old(View()), id).(retained := retained)
      {
        assert CLEARED[..i + 1][..i] == CLEARED[..i];
        Publish(CameraTopic(name, CLEARED[i]), None);
      }
      assert CLEARED[..|CLEARED|] == CLEARED;
    }

    method SetCameraAvailable(id: string, now: bool)
      modifies this`available, this`retained
      ensures View() == Apply(setup, old(View()), Operation.SetCameraAvailable(id, now))
    {
      var known := id in available;
      var previous := On(available, id);
      available := available[id := now];
      if !connected || (known && previous == now) { return; }
      var name := ObjectID(setup.table, id);
      Publish(CameraTopic(name, Availability), Some(AvailabilityPayload(now)));
    }

    method SetTemperatureSupported(id: string, supported: bool) returns (ok: bool)
      modifies this`temperatureSupported, this`temperatureAvailable, this`retained
      ensures ok == Accepted(old(View()), Operation.SetTemperatureSupported(id, supported))
      ensures View() == Apply(setup, old(View()), Operation.SetTemperatureSupported(id, supported))
    {
      hide AfterTemperatureEntity;
      if id !in cameras { return false; }
      temperatureSupported := temperatureSupported[id := supported];
      if !supported { temperatureAvailable := temperatureAvailable - {id}; }
      if connected { PublishTemperatureEntity(cameras[id], supported, On(temperatureAvailable, id)); }
      return true;
    }

    method SetTemperatureAvailable(id: string, now: bool)
      modifies this`temperatureAvailable, this`retained
      ensures View() == Apply(setup, old(View()), Operation.SetTemperatureAvailable(id, now))
    {
      var known := id in temperatureAvailable;
      var previous := On(temperatureAvailable, id);
      if id in cameras { temperatureAvailable := temperatureAvailable[id := now]; }
      if id !in cameras || !On(temperatureSupported, id) || !connected || (known && previous == now) { return; }
      var name := ObjectID(setup.table, id);
      Publish(CameraTopic(name, TemperatureAvailability), Some(AvailabilityPayload(now)));
    }

    method PublishTemperature(id: string, celsius: Option<real>) returns (ok: bool)
      modifies this`temperatureAvailable, this`retained
      ensures ok == Accepted(old(View()), Operation.PublishTemperature(id, celsius))
      ensures View() == Apply(setup, old(View()), Operation.PublishTemperature(id, celsius))
    {
      if celsius.None? || celsius.value <= 0.0 || celsius.value >= 50.0 { return false; }
      if id in cameras { temperatureAvailable := temperatureAvailable[id := true]; }
      if id !in cameras || !On(temperatureSupported, id) || !connected { return true; }
      var name := ObjectID(setup.table, id);
      hide ObjectId;
      Publish(CameraTopic(name, TemperatureValue), Some(Celsius(celsius.value)));
      Publish(CameraTopic(name, TemperatureAvailability), Some(Online));
      return true;
    }

    method PublishFrame(id: string, jpeg: seq<int>) returns (ok: bool)
      modifies this`retained
      ensures ok == Accepted(old(View()), Operation.PublishFrame(id, jpeg))
      ensures View() == Apply(setup, old(View()), Operation.PublishFrame(id, jpeg))
    {
      if !IsJpeg(jpeg) || id !in cameras { return false; }
      if !connected || !setup.frames { return true; }
      var name := ObjectID(setup.table, id);
      Publish(CameraTopic(name, Frame), Some(Jpeg(jpeg)));
      return true;
    }

    method PublishStatus(now: Status)
      modifies this`status, this`retained
      ensures View() == Apply(setup, old(View()), Operation.PublishStatus(now))
    {
      status := now;
      if connected { PublishStatusTopics(); }
    }

    /** The registered cameras, in whatever order the map gives them. */
    method List() returns (listed: seq<Camera>)
      requires forall id :: id in cameras ==> cameras[id].id == id
      ensures Lists(View(), listed)
    {
      listed := [];
      var left := cameras.Keys;
      while left != {}
        invariant left <= cameras.Keys
        invariant forall camera :: camera in listed ==> camera.id in cameras && cameras[camera.id] == camera
        invariant forall id :: id in cameras && id !in left ==> cameras[id] in listed
        decreases |left|
      {
        var id :| id in left;
        listed := listed + [cameras[id]];
        left := left - {id};
      }
    }

    method OnConnect() returns (ghost listed: seq<Camera>)
      requires forall id :: id in cameras ==> cameras[id].id == id
      modifies this`connected, this`retained
      ensures Lists(old(View()), listed) && View() == Apply(setup, old(View()), Connect(listed))
    {
      hide AfterCamera, Sort, AfterStatus, Set;
      var found := List();
      listed := found;
      connected := true;
      Publish(BridgeAvailability, Some(Online));
      Publish(ConnectionEntity, Some(BridgeEntity));
      Publish(SessionsEntity, Some(BridgeEntity));
      Publish(ReconnectsEntity, Some(BridgeEntity));
      ghost var begun := View();
      assert begun == AfterBridge(old(View()).(connected := true));
      var sorted := Sort(BY_ID, found);
      PublishAll(sorted);
      PublishStatusTopics();
    }

    method PublishAll(sorted: seq<Camera>)
      modifies this`retained
      ensures View() == AfterCameras(setup, old(View()), sorted)
    {
      hide AfterCamera;
      for i := 0 to |sorted|
        invariant View() == AfterCameras(setup, old(View()), sorted[..i])
      {
        assert sorted[..i + 1][..i] == sorted[..i];
        PublishCamera(sorted[i]);
      }
      assert sorted[..|sorted|] == sorted;
    }

    method OnLost()
      modifies this`connected, this`retained
      ensures View() == Apply(setup, old(View()), Lost)
    {
      connected := false;
      Publish(BridgeAvailability, Some(Offline));
    }

    method Close()
      modifies this`connected, this`retained
      ensures View() == Apply(setup, old(View()), Operation.Close)
    {
      var was := connected;
      connected := false;
      if was { Publish(BridgeAvailability, Some(Offline)); }
    }
  }
}
