/**
 The camera registry (internal/app/registry.go): which address and which stream name each camera gets, from
 the records of earlier setups, the base address and what is in use on the host.
 */
module Registries {
  import opened Wrappers
  import opened Decimal
  import opened Sorting
  import opened HostPorts
  import opened StreamNames

  datatype Credentials = Credentials(
    deviceID: nat, sid: string, deviceToken: string, udid: string, name: string, model: string,
    controlHost: string, controlPort: int, targetPort: int, apiHost: string, apiPort: int)

  datatype Camera = Camera(credentials: Credentials, streamName: string, listenAddr: string)

  datatype Registry = Registry(cameras: seq<Camera>, legacyAlias: string, legacyTarget: string)

  /** `inUse` is what the port probe would say; empty for a build that does not probe. */
  datatype Options = Options(baseAddress: string, credentials: seq<Credentials>, recorded: map<string, string>,
      inUse: set<int>)

  datatype BuildError = BadBaseAddress | BadBasePort | NoFreePort(wanted: int)

  const MAX_PORT := 65535

  const BY_UDID: (Credentials, Credentials) -> bool := (a: Credentials, b: Credentials) => TextLe(a.udid, b.udid)

  // ---- addresses ----

  /** The port of an address that is on `host` and has a usable one. */
  function PortOn(host: string, address: string): (r: Option<int>)
    ensures r.Some? ==> 1 <= r.value <= MAX_PORT
  {
    match SplitHostPort(address)
    case None => None
    case Some((recordedHost, portText)) =>
      if recordedHost != host then None
      else
        match Atoi(portText)
        case None => None
        case Some(port) => if port < 1 || port > MAX_PORT then None else Some(port)
  }

  /** recordedAddress: what an earlier run gave this camera, on this host. */
  function Recorded(recorded: map<string, string>, c: Credentials, host: string): (r: Option<string>)
    ensures r.Some? ==> c.udid in recorded && r.value == recorded[c.udid] && PortOn(host, r.value).Some?
  {
    if c.udid == "" || c.udid !in recorded || PortOn(host, recorded[c.udid]).None? then None
    else Some(recorded[c.udid])
  }

  /** The ports the records of the listed cameras claim. */
  function Claimed(recorded: map<string, string>, host: string, cameras: seq<Credentials>): set<int> {
    set c | c in cameras && Recorded(recorded, c, host).Some? :: PortOn(host, Recorded(recorded, c, host).value).value
  }

  predicate Free(taken: set<int>, inUse: set<int>, port: int) { port !in taken && port !in inUse }

  /** The least free port at or above `wanted`. */
  function LeastFree(wanted: int, taken: set<int>, inUse: set<int>): (r: Option<int>)
    ensures r.Some? ==> wanted <= r.value <= MAX_PORT && Free(taken, inUse, r.value)
    ensures r.Some? ==> forall port :: wanted <= port < r.value ==> !Free(taken, inUse, port)
    ensures r.None? ==> forall port :: wanted <= port <= MAX_PORT ==> !Free(taken, inUse, port)
    decreases MAX_PORT + 1 - wanted
  {
    if wanted > MAX_PORT then None
    else if Free(taken, inUse, wanted) then Some(wanted)
    else LeastFree(wanted + 1, taken, inUse)
  }

  method FreePort(wanted: int, taken: set<int>, inUse: set<int>) returns (r: Result<int, BuildError>)
    ensures r == if LeastFree(wanted, taken, inUse).None? then Err(NoFreePort(wanted))
          else Ok(LeastFree(wanted, taken, inUse).value)
  {
    var port := wanted;
    while port <= MAX_PORT
      invariant LeastFree(wanted, taken, inUse) == LeastFree(port, taken, inUse)
      decreases MAX_PORT + 1 - port
    {
      if port in taken || port in inUse {
        port := port + 1;
        continue;
      }
      return Ok(port);
    }
    return Err(NoFreePort(wanted));
  }

  /** Where the search of the camera at `index` starts: the base port, or a thousand above it. */
  function Wanted(base: int, index: nat): int { if index > 0 then base + 999 + index else base }

  function Address(host: string, port: int): string { JoinHostPort(host, Itoa(port)) }

  /** The addresses of the cameras from `index` on, the ports in `taken` being claimed. */
  function Assign(
      host: string, base: int, options: Options, cameras: seq<Credentials>, index: nat, taken: set<int>
    ): (r: Result<seq<string>, BuildError>)
    ensures r.Ok? ==> |r.value| == |cameras|
    decreases |cameras|
  {
    if cameras == [] then Ok([])
    else
      match Turn(host, base, options, cameras[0], index, taken)
      case Err(error) => Err(error)
      case Ok((address, next)) => Cons(address, Assign(host, base, options, cameras[1..], index + 1, next))
  }

  /** One camera's address, and the ports taken after it. */
  function Turn(
      host: string, base: int, options: Options, camera: Credentials, index: nat, taken: set<int>
    ): Result<(string, set<int>), BuildError> {
    var recorded := Recorded(options.recorded, camera, host);
    if recorded.Some? then Ok((recorded.value, taken))
    else
      var port := LeastFree(Wanted(base, index), taken, options.inUse);
      if port.None? then Err(NoFreePort(Wanted(base, index)))
      else Ok((Address(host, port.value), taken + {port.value}))
  }

  function Cons(head: string, tail: Result<seq<string>, BuildError>): Result<seq<string>, BuildError> {
    if tail.Err? then tail else Ok([head] + tail.value)
  }

  // ---- names ----

  function NameSource(c: Credentials): string { if c.name == "" then "camera-" + c.udid else c.name }

  function Names(t: CharTable, cameras: seq<Credentials>, used: set<string>): (names: seq<string>)
    ensures |names| == |cameras|
    decreases |cameras|
  {
    if cameras == [] then []
    else
      var name := UniqueName(NameOf(t, NameSource(cameras[0])), used);
      [name] + Names(t, cameras[1..], used + {name})
  }

  // ---- the registry ----

  function Zip(cameras: seq<Credentials>, names: seq<string>, addresses: seq<string>): (r: seq<Camera>)
    requires |cameras| == |names| == |addresses|
    ensures |r| == |cameras|
    ensures forall i :: 0 <= i < |r| ==> r[i] == Camera(cameras[i], names[i], addresses[i])
  {
    seq(|cameras|, i requires 0 <= i < |cameras| => Camera(cameras[i], names[i], addresses[i]))
  }

  /** The base host and port, when the base address has both. */
  function Base(options: Options): Result<(string, int), BuildError> {
    match SplitHostPort(options.baseAddress)
    case None => Err(BadBaseAddress)
    case Some((host, portText)) =>
      match Atoi(portText)
      case None => Err(BadBasePort)
      case Some(port) => if port < 1 || port > MAX_PORT then Err(BadBasePort) else Ok((host, port))
  }

  function Ordered(options: Options): seq<Credentials> { Sort(BY_UDID, options.credentials) }

  function Built(t: CharTable, options: Options): Result<Registry, BuildError> {
    match Base(options)
    case Err(error) => Err(error)
    case Ok((host, port)) =>
      var ordered := Ordered(options);
      match Assign(host, port, options, ordered, 0, Claimed(options.recorded, host, ordered))
      case Err(error) => Err(error)
      case Ok(addresses) => Ok(RegistryOf(Zip(ordered, Names(t, ordered, {}), addresses)))
  }

  function RegistryOf(cameras: seq<Camera>): Registry {
    Registry(cameras, "vm65", if cameras == [] then "" else cameras[0].streamName)
  }

  method Build(t: CharTable, options: Options) returns (r: Result<Registry, BuildError>)
    ensures r == Built(t, options)
  {
    hide Assign, Names, Claimed, Sort;
    var split := SplitHostPort(options.baseAddress);
    if split.None? { return Err(BadBaseAddress); }
    var (host, portText) := split.value;
    var parsed := Atoi(portText);
    if parsed.None? || parsed.value < 1 || parsed.value > MAX_PORT { return Err(BadBasePort); }
    var ordered := Sort(BY_UDID, options.credentials);
    var taken := ClaimRecorded(host, options, ordered);
    var cameras := BuildCameras(t, host, parsed.value, options, ordered, taken);
    if cameras.Err? { return Err(cameras.error); }
    return Ok(Registry(cameras.value, "vm65", if |cameras.value| > 0 then cameras.value[0].streamName else ""));
  }

  /** Recorded addresses are claimed first, so no search can land on one of them. */
  method ClaimRecorded(host: string, options: Options, ordered: seq<Credentials>) returns (taken: set<int>)
    ensures taken == Claimed(options.recorded, host, ordered)
  {
    hide Recorded, PortOn;
    taken := {};
    for index := 0 to |ordered|
      invariant taken == Claimed(options.recorded, host, ordered[..index])
    {
      var recorded := Recorded(options.recorded, ordered[index], host);
      assert ordered[..index + 1] == ordered[..index] + [ordered[index]];
      if recorded.Some? {
        taken := taken + {PortOn(host, recorded.value).value};
      }
    }
    assert ordered[..|ordered|] == ordered;
  }

  method BuildCameras(
      t: CharTable, host: string, base: int, options: Options, ordered: seq<Credentials>, claimed: set<int>)
    returns (r: Result<seq<Camera>, BuildError>)
    ensures var plan := Assign(host, base, options, ordered, 0, claimed);
            r == if plan.Err? then Err(plan.error) else Ok(Zip(ordered, Names(t, ordered, {}), plan.value))
  {
    hide Assign, Turn, Names, NameOf, UniqueName, Prepended, Cons;
    ghost var plan := Assign(host, base, options, ordered, 0, claimed);
    ghost var names := Names(t, ordered, {});
    assert ordered[0..] == ordered;
    var cameras: seq<Camera> := [];
    ghost var addressed: seq<string> := [];
    ghost var named: seq<string> := [];
    var taken := claimed;
    var used: set<string> := {};
    PrependedNothing(plan);
    for index := 0 to |ordered|
      invariant |cameras| == |addressed| == |named| == index
      invariant plan == Prepended(addressed, Assign(host, base, options, ordered[index..], index, taken))
      invariant names == named + Names(t, ordered[index..], used)
      invariant forall i :: 0 <= i < index ==> cameras[i] == Camera(ordered[i], named[i], addressed[i])
    {
      var credential := ordered[index];
      assert ordered[index..][1..] == ordered[index + 1..];
      AssignStep(host, base, options, ordered, index, taken);
      var turn := TakeTurn(host, base, options, credential, index, taken);
      if turn.Err? { return Err(turn.error); }
      var address := turn.value.0;
      taken := turn.value.1;
      ghost var rest := Assign(host, base, options, ordered[index + 1..], index + 1, taken);
      PrependedCons(addressed, address, rest);
      var baseName := StreamName(t, NameSource(credential));
      var name := FindName(baseName, used);
      NamesStep(t, ordered, index, used, named);
      used := used + {name};
      cameras := cameras + [Camera(credential, name, address)];
      addressed := addressed + [address];
      named := named + [name];
    }
    NamesNothing(t, ordered, used, named);
    AssignNothing(host, base, options, ordered, taken);
    assert cameras == Zip(ordered, names, plan.value);
    return Ok(cameras);
  }

  lemma AssignStep(host: string, base: int, options: Options, cameras: seq<Credentials>, index: nat, taken: set<int>)
    requires index < |cameras|
    ensures var turn := Turn(host, base, options, cameras[index], index, taken);
            var whole := Assign(host, base, options, cameras[index..], index, taken);
            if turn.Err? then whole == Err(turn.error)
            else whole == Cons(turn.value.0, Assign(host, base, options, cameras[index + 1..], index + 1, turn.value.1))
  {
    assert cameras[index..][1..] == cameras[index + 1..];
  }

  lemma NamesStep(t: CharTable, cameras: seq<Credentials>, index: nat, used: set<string>, named: seq<string>)
    requires index < |cameras|
    ensures var name := UniqueName(NameOf(t, NameSource(cameras[index])), used);
            named + Names(t, cameras[index..], used) == (named + [name]) + Names(t, cameras[index + 1..], used + {name})
  {
    assert cameras[index..][1..] == cameras[index + 1..];
  }

  lemma NamesNothing(t: CharTable, cameras: seq<Credentials>, used: set<string>, named: seq<string>)
    ensures named + Names(t, cameras[|cameras|..], used) == named
  {
  }

  lemma AssignNothing(host: string, base: int, options: Options, cameras: seq<Credentials>, taken: set<int>)
    ensures Assign(host, base, options, cameras[|cameras|..], |cameras|, taken) == Ok([])
  {
  }

  method TakeTurn(host: string, base: int, options: Options, camera: Credentials, index: nat, taken: set<int>)
    returns (r: Result<(string, set<int>), BuildError>)
    ensures r == Turn(host, base, options, camera, index, taken)
  {
    var recorded := Recorded(options.recorded, camera, host);
    if recorded.Some? { return Ok((recorded.value, taken)); }
    var port := FreePort(Wanted(base, index), taken, options.inUse);
    if port.Err? { return Err(port.error); }
    return Ok((Address(host, port.value), taken + {port.value}));
  }

  function Prepended(done: seq<string>, rest: Result<seq<string>, BuildError>): (r: Result<seq<string>, BuildError>)
    ensures rest.Err? ==> r == rest
    ensures rest == Ok([]) ==> r == Ok(done)
  {
    assert done + [] == done;
    if rest.Err? then rest else Ok(done + rest.value)
  }

  lemma PrependedNothing(rest: Result<seq<string>, BuildError>)
    ensures Prepended([], rest) == rest
  {
    if rest.Ok? { assert [] + rest.value == rest.value; }
  }

  lemma PrependedCons(done: seq<string>, head: string, rest: Result<seq<string>, BuildError>)
    ensures Prepended(done, Cons(head, rest)) == Prepended(done + [head], rest)
  {
    if rest.Ok? { assert done + ([head] + rest.value) == done + [head] + rest.value; }
  }

  // ---- what the addresses promise ----

  predicate AllOn(host: string, addresses: seq<string>) {
    forall i :: 0 <= i < |addresses| ==> PortOn(host, addresses[i]).Some?
  }

  function PortAt(host: string, addresses: seq<string>, i: nat): int
    requires i < |addresses| && AllOn(host, addresses)
  {
    PortOn(host, addresses[i]).value
  }

  predicate New(host: string, options: Options, c: Credentials) { Recorded(options.recorded, c, host).None? }

  /** Taken before the camera at `i` is served: the claims, and the ports found for the new cameras before it. */
  function TakenBefore(
      host: string, options: Options, cameras: seq<Credentials>, addresses: seq<string>, taken: set<int>, i: nat
    ): set<int>
    requires |addresses| == |cameras| && i <= |cameras| && AllOn(host, addresses)
  {
    taken + set j | 0 <= j < i && New(host, options, cameras[j]) :: PortAt(host, addresses, j)
  }

  /** A recorded camera keeps its address; a new one gets the least port free at its turn, from where it looks. */
  predicate Assigned(
      host: string, base: int, options: Options, cameras: seq<Credentials>, index: nat, taken: set<int>,
      addresses: seq<string>) {
    && |addresses| == |cameras| && AllOn(host, addresses)
    && forall i :: 0 <= i < |cameras| ==> AssignedAt(host, base, options, cameras, index, taken, addresses, i)
  }

  predicate AssignedAt(
      host: string, base: int, options: Options, cameras: seq<Credentials>, index: nat, taken: set<int>,
      addresses: seq<string>, i: nat)
    requires |addresses| == |cameras| && AllOn(host, addresses) && i < |cameras|
  {
    if New(host, options, cameras[i]) then
      LeastFree(Wanted(base, index + i), TakenBefore(host, options, cameras, addresses, taken, i), options.inUse)
      == Some(PortAt(host, addresses, i))
    else Recorded(options.recorded, cameras[i], host) == Some(addresses[i])
  }

  lemma AddressHasPort(host: string, port: int)
    requires Bracketless(host) && 1 <= port <= MAX_PORT
    ensures PortOn(host, Address(host, port)) == Some(port)
  {
    SplitJoin(host, Itoa(port));
    AtoiItoa(port);
  }

  lemma {:induction false} AssignAssigns(
      host: string, base: int, options: Options, cameras: seq<Credentials>, index: nat, taken: set<int>,
      addresses: seq<string>)
    requires Bracketless(host) && base >= 1
    requires Assign(host, base, options, cameras, index, taken) == Ok(addresses)
    ensures Assigned(host, base, options, cameras, index, taken, addresses)
    decreases |cameras|
  {
    if cameras == [] {
    } else {
      var found := LeastFree(Wanted(base, index), taken, options.inUse);
      var next := if New(host, options, cameras[0]) then taken + {found.value} else taken;
      var rest := Assign(host, base, options, cameras[1..], index + 1, next).value;
      AssignAssigns(host, base, options, cameras[1..], index + 1, next, rest);
      assert addresses[1..] == rest;
      if New(host, options, cameras[0]) { AddressHasPort(host, found.value); }
      AssignedCons(host, base, options, cameras, index, taken, addresses, next);
    }
  }

  lemma AssignedCons(
      host: string, base: int, options: Options, cameras: seq<Credentials>, index: nat, taken: set<int>,
      addresses: seq<string>, next: set<int>)
    requires |addresses| == |cameras| > 0 && PortOn(host, addresses[0]).Some?
    requires Assigned(host, base, options, cameras[1..], index + 1, next, addresses[1..])
    requires if New(host, options, cameras[0])
             then next == taken + {PortOn(host, addresses[0]).value}
               && LeastFree(Wanted(base, index), taken, options.inUse) == PortOn(host, addresses[0])
             else next == taken && Recorded(options.recorded, cameras[0], host) == Some(addresses[0])
    ensures Assigned(host, base, options, cameras, index, taken, addresses)
  {
    hide PortOn, LeastFree, Recorded, Wanted;
    assert AllOn(host, addresses) by {
      forall i | 0 <= i < |addresses| ensures PortOn(host, addresses[i]).Some? {
        if i > 0 { assert addresses[i] == addresses[1..][i - 1]; }
      }
    }
    forall i | 0 <= i < |cameras| ensures AssignedAt(host, base, options, cameras, index, taken, addresses, i) {
      if i == 0 {
        assert TakenBefore(host, options, cameras, addresses, taken, 0) == taken;
      } else {
        assert AssignedAt(host, base, options, cameras[1..], index + 1, next, addresses[1..], i - 1);
        TakenShifts(host, options, cameras, addresses, taken, next, i);
        assert index + i == index + 1 + (i - 1);
      }
    }
  }

  lemma TakenShifts(
      host: string, options: Options, cameras: seq<Credentials>, addresses: seq<string>, taken: set<int>,
      next: set<int>, i: nat)
    requires |addresses| == |cameras| && 0 < i <= |cameras| && AllOn(host, addresses) && AllOn(host, addresses[1..])
    requires next == if New(host, options, cameras[0]) then taken + {PortAt(host, addresses, 0)} else taken
    ensures TakenBefore(host, options, cameras, addresses, taken, i)
         == TakenBefore(host, options, cameras[1..], addresses[1..], next, i - 1)
  {
    hide PortOn, New;
    var a := TakenBefore(host, options, cameras, addresses, taken, i);
    var b := TakenBefore(host, options, cameras[1..], addresses[1..], next, i - 1);
    forall port | port in a ensures port in b {
      if port !in taken {
        var j :| 0 <= j < i && New(host, options, cameras[j]) && PortAt(host, addresses, j) == port;
        if j > 0 {
          assert New(host, options, cameras[1..][j - 1]) && PortAt(host, addresses[1..], j - 1) == port;
        }
      }
    }
    forall port | port in b ensures port in a {
      if port !in next {
        var j :| 0 <= j < i - 1 && New(host, options, cameras[1..][j]) && PortAt(host, addresses[1..], j) == port;
        assert New(host, options, cameras[j + 1]) && PortAt(host, addresses, j + 1) == port;
      } else if port !in taken {
        assert New(host, options, cameras[0]) && PortAt(host, addresses, 0) == port;
      }
    }
  }

  // ---- one setup ----

  predicate DistinctUDIDs(credentials: seq<Credentials>) {
    && (forall i :: 0 <= i < |credentials| ==> credentials[i].udid != "")
    && (forall i, j :: 0 <= i < j < |credentials| ==> credentials[i].udid != credentials[j].udid)
  }

  predicate OnHost(host: string, cameras: seq<Camera>) {
    forall i :: 0 <= i < |cameras| ==> PortOn(host, cameras[i].listenAddr).Some?
  }

  predicate DistinctPorts(host: string, cameras: seq<Camera>) {
    && OnHost(host, cameras)
    && forall i, j :: 0 <= i < j < |cameras| ==>
        PortOn(host, cameras[i].listenAddr) != PortOn(host, cameras[j].listenAddr)
  }

  /** The usable records of the listed cameras name different ports. */
  predicate DistinctRecords(recorded: map<string, string>, host: string, cameras: seq<Credentials>) {
    forall i, j ::
      0 <= i < j < |cameras|
      && Recorded(recorded, cameras[i], host).Some? && Recorded(recorded, cameras[j], host).Some? ==>
        PortOn(host, Recorded(recorded, cameras[i], host).value)
        != PortOn(host, Recorded(recorded, cameras[j], host).value)
  }

  function HostOf(options: Options): Option<string> {
    match Base(options)
    case Err(_) => None
    case Ok((host, _)) => Some(host)
  }

  lemma BuiltCameras(t: CharTable, options: Options) returns (host: string, base: int, addresses: seq<string>)
    requires Built(t, options).Ok?
    ensures HostOf(options) == Some(host) && base >= 1 && Bracketless(host)
    ensures |addresses| == |Ordered(options)|
    ensures Assigned(host, base, options, Ordered(options), 0, Claimed(options.recorded, host, Ordered(options)),
          addresses)
    ensures Base(options) == Ok((host, base))
    ensures Built(t, options) == Ok(RegistryOf(Zip(Ordered(options), Names(t, Ordered(options), {}), addresses)))
  {
    host, base := Base(options).value.0, Base(options).value.1;
    SplitHostIsBracketless(options.baseAddress);
    var ordered := Ordered(options);
    addresses := Assign(host, base, options, ordered, 0, Claimed(options.recorded, host, ordered)).value;
    AssignAssigns(host, base, options, ordered, 0, Claimed(options.recorded, host, ordered), addresses);
  }

  /** Two cameras of one setup, the second one new: its port was free when the first one's was taken. */
  lemma NewPortIsFree(
      host: string, base: int, options: Options, cameras: seq<Credentials>, addresses: seq<string>, i: nat, j: nat)
    requires Assigned(host, base, options, cameras, 0, Claimed(options.recorded, host, cameras), addresses)
    requires i < |cameras| && j < |cameras| && New(host, options, cameras[j])
    requires i < j || !New(host, options, cameras[i])
    ensures PortAt(host, addresses, i) != PortAt(host, addresses, j)
  {
    var taken := Claimed(options.recorded, host, cameras);
    assert AssignedAt(host, base, options, cameras, 0, taken, addresses, i);
    assert AssignedAt(host, base, options, cameras, 0, taken, addresses, j);
    assert Free(TakenBefore(host, options, cameras, addresses, taken, j), options.inUse, PortAt(host, addresses, j));
    assert PortAt(host, addresses, i) in TakenBefore(host, options, cameras, addresses, taken, j) by {
      if !New(host, options, cameras[i]) {
        assert cameras[i] in cameras;
        assert PortAt(host, addresses, i) in taken;
      }
    }
  }

  lemma AssignedDistinct(host: string, base: int, options: Options, cameras: seq<Credentials>, addresses: seq<string>)
    requires Assigned(host, base, options, cameras, 0, Claimed(options.recorded, host, cameras), addresses)
    requires DistinctRecords(options.recorded, host, cameras)
    ensures forall i, j :: 0 <= i < j < |addresses| ==> PortOn(host, addresses[i]) != PortOn(host, addresses[j])
  {
    forall i, j | 0 <= i < j < |addresses| ensures PortOn(host, addresses[i]) != PortOn(host, addresses[j]) {
      if New(host, options, cameras[j]) {
        NewPortIsFree(host, base, options, cameras, addresses, i, j);
      } else if New(host, options, cameras[i]) {
        NewPortIsFree(host, base, options, cameras, addresses, j, i);
      } else {
        var taken := Claimed(options.recorded, host, cameras);
        assert AssignedAt(host, base, options, cameras, 0, taken, addresses, i);
        assert AssignedAt(host, base, options, cameras, 0, taken, addresses, j);
      }
    }
  }

  /** Records with different ports give a registry with different ports, all of them on the base host. */
  lemma PortsAreDistinct(t: CharTable, options: Options)
    requires Built(t, options).Ok?
    requires DistinctRecords(options.recorded, HostOf(options).value, Ordered(options))
    ensures DistinctPorts(HostOf(options).value, Built(t, options).value.cameras)
  {
    var host, base, addresses := BuiltCameras(t, options);
    AssignedDistinct(host, base, options, Ordered(options), addresses);
    assert AllOn(host, addresses);
  }

  /** What the ports of the new cameras among the first `i` are. */
  function NewPorts(host: string, options: Options, cameras: seq<Camera>, i: nat): set<int>
    requires i <= |cameras| && OnHost(host, cameras)
  {
    set j | 0 <= j < i && New(host, options, cameras[j].credentials) :: PortOn(host, cameras[j].listenAddr).value
  }

  /** The cameras of a registry carry the ordered credentials and the assigned addresses. */
  predicate Carries(cameras: seq<Camera>, ordered: seq<Credentials>, addresses: seq<string>) {
    && |cameras| == |ordered| == |addresses|
    && forall k :: 0 <= k < |cameras| ==> cameras[k].credentials == ordered[k] && cameras[k].listenAddr == addresses[k]
  }

  lemma NewPortsAreTaken(
      host: string, options: Options, ordered: seq<Credentials>, addresses: seq<string>, claimed: set<int>,
      cameras: seq<Camera>, i: nat)
    requires Carries(cameras, ordered, addresses) && AllOn(host, addresses) && i <= |cameras|
    ensures OnHost(host, cameras)
    ensures TakenBefore(host, options, ordered, addresses, claimed, i) == claimed + NewPorts(host, options, cameras, i)
  {
    hide PortOn, New;
  }

  /** The port is in use, or a usable record of a listed camera names it, or an earlier new camera got it. */
  predicate Busy(options: Options, host: string, cameras: seq<Camera>, i: nat, port: int)
    requires i <= |cameras| && OnHost(host, cameras)
  {
    || port in options.inUse
    || (exists k :: 0 <= k < |options.credentials|
          && Recorded(options.recorded, options.credentials[k], host).Some?
          && PortOn(host, Recorded(options.recorded, options.credentials[k], host).value) == Some(port))
    || (exists j :: 0 <= j < i && New(host, options, cameras[j].credentials)
          && PortOn(host, cameras[j].listenAddr) == Some(port))
  }

  lemma BusyIsTaken(options: Options, host: string, cameras: seq<Camera>, i: nat, port: int)
    requires i <= |cameras| && OnHost(host, cameras)
    ensures Busy(options, host, cameras, i, port)
       <==> !Free(Claimed(options.recorded, host, Ordered(options)) + NewPorts(host, options, cameras, i),
                  options.inUse, port)
  {
    hide PortOn, New, Recorded, Sort;
    SortKeepsElements(BY_UDID, options.credentials);
    if port in Claimed(options.recorded, host, Ordered(options)) {
      var c :| c in Ordered(options) && Recorded(options.recorded, c, host).Some?
               && PortOn(host, Recorded(options.recorded, c, host).value).value == port;
      var k :| 0 <= k < |options.credentials| && options.credentials[k] == c;
    }
  }

  /**
   A camera with a usable record keeps that very address, whatever the probe says. A new one gets the least port that
   is not busy, from the base port if it is the first of all and otherwise from a thousand above it and its position.
   */
  lemma EachCameraGetsItsAddress(t: CharTable, options: Options, i: nat)
    requires Built(t, options).Ok? && i < |Built(t, options).value.cameras|
    ensures OnHost(HostOf(options).value, Built(t, options).value.cameras)
    ensures var host := HostOf(options).value;
            var cameras := Built(t, options).value.cameras;
            var recorded := Recorded(options.recorded, cameras[i].credentials, host);
            var first := Base(options).value.1 + (if i == 0 then 0 else 1000 + i - 1);
            var port := PortOn(host, cameras[i].listenAddr).value;
            && (recorded.Some? ==> cameras[i].listenAddr == recorded.value)
            && (recorded.None? ==>
                  && first <= port && !Busy(options, host, cameras, i, port)
                  && forall p :: first <= p < port ==> Busy(options, host, cameras, i, p))
  {
    hide Assign, PortOn, Recorded, Claimed, Names, Sort;
    var host, base, addresses := BuiltCameras(t, options);
    var cameras := Built(t, options).value.cameras;
    var ordered := Ordered(options);
    var claimed := Claimed(options.recorded, host, ordered);
    assert Carries(cameras, ordered, addresses);
    NewPortsAreTaken(host, options, ordered, addresses, claimed, cameras, i);
    assert AssignedAt(host, base, options, ordered, 0, claimed, addresses, i);
    forall p { BusyIsTaken(options, host, cameras, i, p); }
    hide Busy, Free;
  }

  /** The camera at `i` is new, and every port from where its search starts is taken by then or in use. */
  predicate RunsOut(
      host: string, base: int, options: Options, cameras: seq<Credentials>, index: nat, taken: set<int>, i: nat,
      addresses: seq<string>) {
    && i < |cameras| && New(host, options, cameras[i])
    && Assigned(host, base, options, cameras[..i], index, taken, addresses)
    && var first := if index + i == 0 then base else base + 999 + index + i;
       forall p :: first <= p <= 65535 ==>
         !Free(TakenBefore(host, options, cameras[..i], addresses, taken, i), options.inUse, p)
  }

  lemma RunsOutNow(
      host: string, base: int, options: Options, cameras: seq<Credentials>, index: nat, taken: set<int>)
    requires cameras != [] && Turn(host, base, options, cameras[0], index, taken).Err?
    ensures RunsOut(host, base, options, cameras, index, taken, 0, [])
  {
    hide PortOn, Recorded;
    assert TakenBefore(host, options, cameras[..0], [], taken, 0) == taken;
  }

  lemma TurnGives(
      host: string, base: int, options: Options, camera: Credentials, index: nat, taken: set<int>, address: string,
      next: set<int>)
    requires Bracketless(host) && base >= 1
    requires Turn(host, base, options, camera, index, taken) == Ok((address, next))
    ensures PortOn(host, address).Some?
    ensures if New(host, options, camera)
            then next == taken + {PortOn(host, address).value}
              && LeastFree(Wanted(base, index), taken, options.inUse) == PortOn(host, address)
            else next == taken && Recorded(options.recorded, camera, host) == Some(address)
  {
    if New(host, options, camera) {
      AddressHasPort(host, LeastFree(Wanted(base, index), taken, options.inUse).value);
    }
    hide PortOn, LeastFree, Address;
  }

  lemma RunsOutLater(
      host: string, base: int, options: Options, cameras: seq<Credentials>, index: nat, taken: set<int>,
      address: string, next: set<int>, i: nat, rest: seq<string>)
    requires Bracketless(host) && base >= 1 && cameras != []
    requires Turn(host, base, options, cameras[0], index, taken) == Ok((address, next))
    requires RunsOut(host, base, options, cameras[1..], index + 1, next, i, rest)
    ensures RunsOut(host, base, options, cameras, index, taken, i + 1, [address] + rest)
  {
    hide PortOn, Recorded, LeastFree, Free, Assigned, Address, Turn, TakenBefore, New, Wanted;
    var addresses := [address] + rest;
    var before := cameras[..i + 1];
    assert before[1..] == cameras[1..][..i] && addresses[1..] == rest && before[0] == cameras[0];
    TurnGives(host, base, options, cameras[0], index, taken, address, next);
    AssignedIsOn(host, base, options, before[1..], index + 1, next, rest);
    AssignedCons(host, base, options, before, index, taken, addresses, next);
    AssignedIsOn(host, base, options, before, index, taken, addresses);
    TakenShifts(host, options, before, addresses, taken, next, i + 1);
    assert cameras[1..][i] == cameras[i + 1];
  }

  lemma AssignedIsOn(
      host: string, base: int, options: Options, cameras: seq<Credentials>, index: nat, taken: set<int>,
      addresses: seq<string>)
    requires Assigned(host, base, options, cameras, index, taken, addresses)
    ensures |addresses| == |cameras| && AllOn(host, addresses)
  {
  }

  /** A search fails only where every port from where it starts is taken by then or in use. */
  lemma {:induction false} AssignFails(
      host: string, base: int, options: Options, cameras: seq<Credentials>, index: nat, taken: set<int>)
    returns (i: nat, addresses: seq<string>)
    requires Bracketless(host) && base >= 1 && Assign(host, base, options, cameras, index, taken).Err?
    ensures RunsOut(host, base, options, cameras, index, taken, i, addresses)
    ensures Assign(host, base, options, cameras, index, taken)
         == Err(NoFreePort(if index + i == 0 then base else base + 999 + index + i))
    decreases |cameras|
  {
    hide Turn, RunsOut;
    var turn := Turn(host, base, options, cameras[0], index, taken);
    if turn.Err? {
      RunsOutNow(host, base, options, cameras, index, taken);
      TurnFails(host, base, options, cameras[0], index, taken);
      i, addresses := 0, [];
    } else {
      var (address, next) := turn.value;
      var rest;
      i, rest := AssignFails(host, base, options, cameras[1..], index + 1, next);
      RunsOutLater(host, base, options, cameras, index, taken, address, next, i, rest);
      i, addresses := i + 1, [address] + rest;
    }
  }

  lemma TurnFails(host: string, base: int, options: Options, camera: Credentials, index: nat, taken: set<int>)
    requires Turn(host, base, options, camera, index, taken).Err?
    ensures Turn(host, base, options, camera, index, taken)
         == Err(NoFreePort(if index == 0 then base else base + 999 + index))
  {
    hide Recorded;
  }

  /** Where the base address is sound, a build fails only for a new camera for which no port is left. */
  lemma BuildFailsWithoutAPort(t: CharTable, options: Options) returns (i: nat, addresses: seq<string>)
    requires Base(options).Ok? && Built(t, options).Err?
    ensures var (host, base) := Base(options).value;
            var claimed := Claimed(options.recorded, host, Ordered(options));
            && RunsOut(host, base, options, Ordered(options), 0, claimed, i, addresses)
            && Built(t, options) == Err(NoFreePort(if i == 0 then base else base + 999 + i))
  {
    hide Assign, Names, Claimed, Sort, RunsOut;
    var (host, base) := Base(options).value;
    SplitHostIsBracketless(options.baseAddress);
    i, addresses := AssignFails(host, base, options, Ordered(options), 0,
                                Claimed(options.recorded, host, Ordered(options)));
  }

  /** A base address of a host and a number is used as it is exactly if the number is a port. */
  lemma BaseIsUsedIff(options: Options, host: string, port: int)
    requires Bracketless(host) && options.baseAddress == JoinHostPort(host, Itoa(port))
    requires 0 <= port <= MAX_INT
    ensures Base(options) == if 1 <= port <= 65535 then Ok((host, port)) else Err(BadBasePort)
  {
    SplitJoin(host, Itoa(port));
    AtoiItoa(port);
  }

  /** A record of a host and a number counts exactly if the host is this one and the number a port. */
  lemma RecordCountsIff(recorded: map<string, string>, c: Credentials, host: string, other: string, port: int)
    requires Bracketless(other) && c.udid in recorded && recorded[c.udid] == JoinHostPort(other, Itoa(port))
    requires 0 <= port <= MAX_INT
    ensures Recorded(recorded, c, host).Some? <==> c.udid != "" && other == host && 1 <= port <= 65535
    ensures Recorded(recorded, c, host).Some? ==>
              Recorded(recorded, c, host).value == recorded[c.udid] && PortOn(host, recorded[c.udid]) == Some(port)
  {
    SplitJoin(other, Itoa(port));
    AtoiItoa(port);
  }

  /** The old name goes to the first camera, and to none where there is none. */
  lemma OldNameIsTheFirst(t: CharTable, options: Options)
    requires Built(t, options).Ok?
    ensures var registry := Built(t, options).value;
            && registry.legacyAlias == "vm65"
            && (registry.cameras != [] ==> registry.legacyTarget == registry.cameras[0].streamName)
            && (registry.cameras == [] ==> registry.legacyTarget == "")
  {
    hide Assign, Names, Claimed, Sort;
  }

  /** The registry has exactly the cameras that were listed, in the order of their identifiers. */
  lemma ListedInOrder(t: CharTable, options: Options)
    requires Built(t, options).Ok?
    ensures var cameras := Built(t, options).value.cameras;
            var listed := seq(|cameras|, i requires 0 <= i < |cameras| => cameras[i].credentials);
            && multiset(listed) == multiset(options.credentials)
            && forall i, j :: 0 <= i < j < |listed| ==> TextLe(listed[i].udid, listed[j].udid)
  {
    hide Assign, Names, Claimed, Sort, TextLe, Recorded;
    var cameras := Built(t, options).value.cameras;
    var listed := seq(|cameras|, i requires 0 <= i < |cameras| => cameras[i].credentials);
    assert listed == Ordered(options);
    SortPermutes(BY_UDID, options.credentials);
    ByUDIDIsPreorder();
    SortSorts(BY_UDID, options.credentials);
    forall i, j | 0 <= i < j < |listed| ensures TextLe(listed[i].udid, listed[j].udid) {
      assert BY_UDID(listed[i], listed[j]);
    }
  }

  // ---- setup after setup ----

  /** Addresses: what the next run reads back as its records. */
  function AddressBook(cameras: seq<Camera>): map<string, string> {
    if cameras == [] then map[]
    else
      var last := cameras[|cameras| - 1];
      var book := AddressBook(cameras[..|cameras| - 1]);
      if last.credentials.udid == "" then book else book[last.credentials.udid := last.listenAddr]
  }

  method Addresses(registry: Registry) returns (addresses: map<string, string>)
    ensures addresses == AddressBook(registry.cameras)
  {
    addresses := map[];
    for i := 0 to |registry.cameras|
      invariant addresses == AddressBook(registry.cameras[..i])
    {
      var camera := registry.cameras[i];
      assert registry.cameras[..i + 1][..i] == registry.cameras[..i];
      if camera.credentials.udid != "" {
        addresses := addresses[camera.credentials.udid := camera.listenAddr];
      }
    }
    assert registry.cameras[..|registry.cameras|] == registry.cameras;
  }

  /** A camera without an identifier has no place in the book. */
  lemma {:induction false} BookSkipsTheNameless(cameras: seq<Camera>)
    ensures "" !in AddressBook(cameras)
  {
    if cameras == [] {
    } else {
      BookSkipsTheNameless(cameras[..|cameras| - 1]);
    }
  }

  predicate DistinctCameras(cameras: seq<Camera>) {
    && (forall i :: 0 <= i < |cameras| ==> cameras[i].credentials.udid != "")
    && (forall i, j :: 0 <= i < j < |cameras| ==> cameras[i].credentials.udid != cameras[j].credentials.udid)
  }

  lemma {:induction false} BookKeepsAddresses(cameras: seq<Camera>)
    requires DistinctCameras(cameras)
    ensures forall i :: 0 <= i < |cameras| ==>
              cameras[i].credentials.udid in AddressBook(cameras)
                  && AddressBook(cameras)[cameras[i].credentials.udid] == cameras[i].listenAddr
    ensures forall udid :: udid in AddressBook(cameras) ==>
          exists i :: 0 <= i < |cameras| && cameras[i].credentials.udid == udid
  {
    if cameras == [] {
    } else {
      var rest := cameras[..|cameras| - 1];
      BookKeepsAddresses(rest);
      forall udid | udid in AddressBook(cameras)
        ensures exists i :: 0 <= i < |cameras| && cameras[i].credentials.udid == udid
      {
        if udid == cameras[|cameras| - 1].credentials.udid {
          assert cameras[|cameras| - 1].credentials.udid == udid;
        } else {
          assert udid in AddressBook(rest);
          var i :| 0 <= i < |rest| && rest[i].credentials.udid == udid;
          assert cameras[i].credentials.udid == udid;
        }
      }
    }
  }

  lemma SortedDistinct(options: Options)
    requires DistinctUDIDs(options.credentials)
    ensures DistinctUDIDs(Ordered(options))
  {
    var ordered := Ordered(options);
    SortPermutes(BY_UDID, options.credentials);
    SortKeepsElements(BY_UDID, options.credentials);
    NoRepeats(options.credentials);
    forall i | 0 <= i < |ordered| ensures ordered[i].udid != "" {
      assert ordered[i] in ordered;
    }
    forall i, j | 0 <= i < j < |ordered| ensures ordered[i].udid != ordered[j].udid {
      if ordered[i].udid == ordered[j].udid {
        SameUDIDSame(options.credentials, ordered[i], ordered[j]);
        TwiceInMultiset(ordered, i, j);
      }
    }
  }

  lemma NoRepeats(credentials: seq<Credentials>)
    requires DistinctUDIDs(credentials)
    ensures forall c :: multiset(credentials)[c] <= 1
  {
    if credentials == [] {
    } else {
      var rest := credentials[..|credentials| - 1];
      NoRepeats(rest);
      assert credentials == rest + [credentials[|credentials| - 1]];
      forall c ensures multiset(credentials)[c] <= 1 {
        if c in rest { assert c.udid != credentials[|credentials| - 1].udid; }
      }
    }
  }

  lemma SameUDIDSame(credentials: seq<Credentials>, a: Credentials, b: Credentials)
    requires DistinctUDIDs(credentials) && a in credentials && b in credentials && a.udid == b.udid
    ensures a == b
  {
  }

  lemma TwiceInMultiset<T>(s: seq<T>, i: nat, j: nat)
    requires i < j < |s| && s[i] == s[j]
    ensures multiset(s)[s[i]] >= 2
  {
    assert s == s[..i] + [s[i]] + s[i + 1..j] + [s[j]] + s[j + 1..];
  }

  /** A setup that reads back what the last one recorded, on the same host. */
  predicate Follows(t: CharTable, before: Options, after: Options) {
    && Built(t, before).Ok? && Built(t, after).Ok?
    && HostOf(after) == HostOf(before)
    && DistinctUDIDs(before.credentials) && DistinctUDIDs(after.credentials)
    && after.recorded == AddressBook(Built(t, before).value.cameras)
  }

  lemma BuiltIsDistinct(t: CharTable, options: Options)
    requires Built(t, options).Ok? && DistinctUDIDs(options.credentials)
    ensures DistinctCameras(Built(t, options).value.cameras)
    ensures forall i :: 0 <= i < |Built(t, options).value.cameras| ==>
              Built(t, options).value.cameras[i].credentials == Ordered(options)[i]
  {
    hide Assign, Assigned, Names, Sort, Claimed, Base, HostOf;
    SortedDistinct(options);
    var host, base, addresses := BuiltCameras(t, options);
  }

  /** A camera in consecutive setups never moves, whatever the base port and the port probe. */
  lemma CameraNeverMoves(t: CharTable, before: Options, after: Options, i: nat, j: nat)
    requires Follows(t, before, after)
    requires i < |Built(t, before).value.cameras| && j < |Built(t, after).value.cameras|
    requires Built(t, before).value.cameras[i].credentials.udid == Built(t, after).value.cameras[j].credentials.udid
    ensures Built(t, after).value.cameras[j].listenAddr == Built(t, before).value.cameras[i].listenAddr
  {
    BuiltIsDistinct(t, before);
    BookKeepsAddresses(Built(t, before).value.cameras);
    EachCameraGetsItsAddress(t, before, i);
    EachCameraGetsItsAddress(t, after, j);
  }

  lemma BookGivesDistinctRecords(t: CharTable, before: Options, after: Options)
    requires Follows(t, before, after)
    requires DistinctPorts(HostOf(before).value, Built(t, before).value.cameras)
    ensures DistinctRecords(after.recorded, HostOf(after).value, Ordered(after))
  {
    hide PortOn;
    var host := HostOf(after).value;
    hide Built;
    var earlier := Built(t, before).value.cameras;
    var ordered := Ordered(after);
    BuiltIsDistinct(t, before);
    BookKeepsAddresses(earlier);
    SortedDistinct(after);
    forall i, j | 0 <= i < j < |ordered| && Recorded(after.recorded, ordered[i], host).Some?
        && Recorded(after.recorded, ordered[j], host).Some?
      ensures PortOn(host, Recorded(after.recorded, ordered[i], host).value)
           != PortOn(host, Recorded(after.recorded, ordered[j], host).value)
    {
      var a :| 0 <= a < |earlier| && earlier[a].credentials.udid == ordered[i].udid;
      var b :| 0 <= b < |earlier| && earlier[b].credentials.udid == ordered[j].udid;
      assert a != b;
      assert a < b || b < a;
    }
  }

  /** A sequence of setups, each reading back what the one before it recorded. */
  predicate Chain(t: CharTable, setups: seq<Options>) {
    && |setups| > 0
    && Built(t, setups[0]).Ok? && DistinctUDIDs(setups[0].credentials)
    && DistinctRecords(setups[0].recorded, HostOf(setups[0]).value, Ordered(setups[0]))
    && forall k {:trigger setups[k]} :: 0 < k < |setups| ==> Follows(t, setups[k - 1], setups[k])
  }

  /** Over any sequence of setups the ports of every registry stay pairwise distinct. */
  lemma {:induction false} PortsStayDistinct(t: CharTable, setups: seq<Options>, k: nat)
    requires Chain(t, setups) && k < |setups|
    ensures Built(t, setups[k]).Ok? && DistinctPorts(HostOf(setups[k]).value, Built(t, setups[k]).value.cameras)
  {
    hide Built, DistinctRecords, DistinctPorts, Ordered;
    if k == 0 {
    } else {
      PortsStayDistinct(t, setups, k - 1);
      assert Follows(t, setups[k - 1], setups[k]);
      BookGivesDistinctRecords(t, setups[k - 1], setups[k]);
    }
    PortsAreDistinct(t, setups[k]);
  }

  // ---- names, and the order of the credentials ----

  predicate NewAndDistinct(names: seq<string>, used: set<string>) {
    && (forall i :: 0 <= i < |names| ==> names[i] !in used)
    && (forall i, j :: 0 <= i < j < |names| ==> names[i] != names[j])
  }

  lemma NewAndDistinctCons(name: string, rest: seq<string>, used: set<string>)
    requires name !in used && NewAndDistinct(rest, used + {name})
    ensures NewAndDistinct([name] + rest, used)
  {
  }

  lemma {:induction false} NamesAreNew(t: CharTable, cameras: seq<Credentials>, used: set<string>)
    ensures NewAndDistinct(Names(t, cameras, used), used)
    decreases |cameras|
  {
    if cameras == [] {
    } else {
      var name := UniqueName(NameOf(t, NameSource(cameras[0])), used);
      NamesAreNew(t, cameras[1..], used + {name});
      NewAndDistinctCons(name, Names(t, cameras[1..], used + {name}), used);
    }
  }

  /** The name at `i` is the first of base, base-2, base-3 and so on that no name before it has taken. */
  ghost predicate FirstFree(base: string, earlier: set<string>, name: string) {
    exists k: nat :: k >= 1 && name == Numbered(base, k) && name !in earlier
      && forall j: nat :: 1 <= j < k ==> Numbered(base, j) in earlier
  }

  function Numbered(base: string, k: nat): string { if k == 1 then base else base + "-" + Itoa(k) }

  function Elements(names: seq<string>): set<string> { set name | name in names }

  lemma UniqueIsFirstFree(base: string, used: set<string>)
    ensures FirstFree(base, used, UniqueName(base, used))
  {
    var k := Unused(base, used, 1);
    forall j: nat | 1 <= j <= k ensures Numbered(base, j) == Candidate(base, j) {}
    hide Candidate, Numbered;
    assert UniqueName(base, used) == Numbered(base, k);
  }

  lemma {:induction false} NamesAreFirstFree(t: CharTable, cameras: seq<Credentials>, used: set<string>, i: nat)
    requires i < |cameras|
    ensures var names := Names(t, cameras, used);
            FirstFree(NameOf(t, if cameras[i].name == "" then "camera-" + cameras[i].udid else cameras[i].name),
                      used + Elements(names[..i]), names[i])
    decreases |cameras|
  {
    hide NameOf, UniqueName, FirstFree;
    var names := Names(t, cameras, used);
    if i == 0 {
      UniqueIsFirstFree(NameOf(t, NameSource(cameras[0])), used);
      assert used + Elements(names[..0]) == used;
    } else {
      NamesAreFirstFree(t, cameras[1..], used + {names[0]}, i - 1);
      var rest := Names(t, cameras[1..], used + {names[0]});
      assert names[..i] == [names[0]] + rest[..i - 1];
      assert used + Elements(names[..i]) == used + {names[0]} + Elements(rest[..i - 1]);
    }
  }

  /** Each camera has the first free name made of its own, or of its identifier where it has none. */
  lemma EachCameraGetsItsName(t: CharTable, options: Options, i: nat)
    requires Built(t, options).Ok? && i < |Built(t, options).value.cameras|
    ensures var cameras := Built(t, options).value.cameras;
            var c := cameras[i].credentials;
            FirstFree(NameOf(t, if c.name == "" then "camera-" + c.udid else c.name),
                      set j | 0 <= j < i :: cameras[j].streamName, cameras[i].streamName)
  {
    hide Assign, NameOf, Claimed, Sort, FirstFree, UniqueName, Names;
    var cameras := Built(t, options).value.cameras;
    var names := Names(t, Ordered(options), {});
    NamesAreFirstFree(t, Ordered(options), {}, i);
    var earlier := set j | 0 <= j < i :: cameras[j].streamName;
    forall name | name in names[..i] ensures name in earlier {
      var j :| 0 <= j < i && names[j] == name;
      assert cameras[j].streamName == name;
    }
    forall j | 0 <= j < i ensures cameras[j].streamName in names[..i] { assert names[..i][j] == cameras[j].streamName; }
    assert {} + Elements(names[..i]) == earlier;
  }

  /** No two cameras of a registry share a stream name. */
  lemma StreamNamesAreDistinct(t: CharTable, options: Options, i: nat, j: nat)
    requires Built(t, options).Ok? && i < j < |Built(t, options).value.cameras|
    ensures Built(t, options).value.cameras[i].streamName != Built(t, options).value.cameras[j].streamName
  {
    var host, base, addresses := BuiltCameras(t, options);
    NamesAreNew(t, Ordered(options), {});
  }

  lemma ByUDIDIsPreorder()
    ensures TotalPreorder(BY_UDID)
  {
    forall a, b ensures BY_UDID(a, b) || BY_UDID(b, a) { TextTotal(a.udid, b.udid); }
    forall a, b, c | BY_UDID(a, b) && BY_UDID(b, c) ensures BY_UDID(a, c) { TextTransitive(a.udid, b.udid, c.udid); }
  }

  lemma OrderIsIrrelevant(options: Options, shuffled: seq<Credentials>)
    requires DistinctUDIDs(options.credentials) && multiset(shuffled) == multiset(options.credentials)
    ensures Sort(BY_UDID, shuffled) == Sort(BY_UDID, options.credentials)
  {
    hide Sort, TextLe;
    var a, b := Sort(BY_UDID, options.credentials), Sort(BY_UDID, shuffled);
    ByUDIDIsPreorder();
    SortSorts(BY_UDID, options.credentials);
    SortSorts(BY_UDID, shuffled);
    SortPermutes(BY_UDID, options.credentials);
    SortPermutes(BY_UDID, shuffled);
    SortKeepsElements(BY_UDID, options.credentials);
    forall x, y | x in a && y in a && BY_UDID(x, y) && BY_UDID(y, x) ensures x == y {
      TextTotal(x.udid, y.udid);
      SameUDIDSame(options.credentials, x, y);
    }
    SortedUnique(BY_UDID, a, b);
  }

  /** With distinct UDIDs nothing about the registry depends on the order the credentials are listed in. */
  lemma ListingOrderIsIrrelevant(t: CharTable, options: Options, shuffled: seq<Credentials>)
    requires DistinctUDIDs(options.credentials) && multiset(shuffled) == multiset(options.credentials)
    ensures Built(t, options.(credentials := shuffled)) == Built(t, options)
  {
    hide Assign, Sort, Names, Claimed;
    OrderIsIrrelevant(options, shuffled);
    if Base(options).Ok? {
      var ordered := Ordered(options);
      var (host, port) := Base(options).value;
      SameAssignAt(host, port, options, shuffled, ordered, 0, Claimed(options.recorded, host, ordered));
    }
  }

  lemma {:induction false} SameAssignAt(
      host: string, base: int, options: Options, shuffled: seq<Credentials>, ordered: seq<Credentials>, index: nat,
      taken: set<int>)
    ensures Assign(host, base, options.(credentials := shuffled), ordered, index, taken)
          == Assign(host, base, options, ordered, index, taken)
    decreases |ordered|
  {
    if ordered == [] {
    } else {
      var turn := Turn(host, base, options, ordered[0], index, taken);
      if turn.Ok? { SameAssignAt(host, base, options, shuffled, ordered[1..], index + 1, turn.value.1); }
    }
  }
}
