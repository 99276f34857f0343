# A verified model of the Motorola VM65 bridge

The bridge lets a home automation system watch a Motorola nursery camera. It accepts RTSP clients on local ports,
opens a relay session for each through the vendor's relay, and passes bytes both ways under a self-keying byte cipher.
Around that it keeps a registry of cameras with stable ports and names, supervises one bridge per camera across
reloads, announces the cameras over MQTT, caches still images, follows temperatures, and keeps the account paired.

This project models those parts in Dafny and proves what they promise. `dafny verify dfyconfig.toml` checks it all.

How the model is laid out, one module per file:

- `TokenCrypto`, `Tunnel`: the cipher of one direction and the tunnel over it. A value machine (encoder and decoder
  states, and one step of each) is the specification; the classes with their arrays and buffers are proved to do
  exactly those steps, and the theorems are about runs of the machine.
- `Session`, `CopyLoops`: one relay session, as a machine whose steps are those of the client watch, of the replay and
  of the copy loop in any order, and the loops themselves over scripted sockets.
- `SessionSlots`, `RefusalCooldown`, `BridgeDial`: the lock-free slot counter, the refusal cooldown with its probe, and
  the methods and the retry loop of the bridge object. A session's read of the record and its read of the clock are
  two steps, as in the code.
- `OfflineDecoder`, `PythonInts`: the Python capture decoder, a second implementation of the same cipher with the
  operators of Python's integers, proved equal to the first.
- `RelayOpen`, `ControlDiscovery`, `Decimal`: the text frames of the relay protocol.
- `Registry`, `StreamNames`, `HostPorts`, `Sorting`: addresses and names of cameras.
- `Runtime`, `HealthPublishing`: startup, reload and the restart loops of all cameras, interleaved in any order, and how
  their counters reach the health state.
- `MqttDiscovery`, `MqttHistory`: the service and the broker's retained messages, and what they say by the operations
  of a run alone.
- `SnapshotCache`, `TemperatureSupervisor`, `PairingProvider`: the cache of still images, the temperature workers and
  the pairing state.
- `Wrappers`, `Sequences`, `Arithmetic`, `Bits`: what the others share.

Every concurrent part is a machine: a state, an `Enabled` predicate and a `Step` function over events, and theorems
over every run. What comes from outside is a parameter: bytes and errors of sockets, answers of servers, the clock,
random bytes, the port probe, whether a listener can be bound, the order in which a map is walked.

Some things the model shows about the code that its own comments do not say:

- The comment on the cooldown (internal/bridge/bridge.go:520-526) says the relay is left alone for the cooldown after a
  refusal. A session that finds no cooldown to wait for may still start to dial right after a refusal, because it
  reads the record first and the clock afterwards. `DeciderCanStartTooSoon` is such a run, `DeciderStartsInQuietIff`
  says when the promise is kept.
- `Reload` is described as safe to call while `Run` is executing (internal/app/app.go:184-186). While `Run` is still
  starting its cameras it is not: from every such state a reload can end with two restart loops for one camera, one of
  which no key names (`EarlyReloadClashes`). It is safe exactly once they are started (`ReloadIsSafeIff`).
- The health state is said to reflect always how many bridges serve (internal/app/app.go:4-6). The numbers are read and set
  in separate steps by many goroutines, so an older one can be set last and stay: `HealthCanStayStale`, for every
  registry. `SettlesOnTheCountersIff` and `OvertakingIsTheHarm` say exactly when that happens.
- A retry of a dial does not look at the cooldown again and may come right after the refusal of another session:
  `RetryCanComeTooSoon`, and exactly when, `RetryInQuietIff`.
- A session the server rejected stays stored when the code that should replace it cannot be sent or the state cannot be
  saved (internal/fivegencare/provider.go:225-238, 312-323), so the next restore asks with it again:
  `RejectedSessionIsGone` says exactly when it goes.
- Two camera identifiers that differ only in case or punctuation share one MQTT object, and removing one takes the
  entities of the other: `SharedObjectBreaks`.
- A request admitted before its stream was dropped puts an entry for it back into the snapshot cache; nothing else does
  (`DroppedStaysOutIff`), and it stays until the next accepted list without its stream (`EntryStaysUntilAList`).
- One fetch per camera (internal/snapshot/snapshot.go:374) can fail for a stream that is dropped while a fetch for it
  runs: `SecondFetch` where it is listed again, `SecondFetchByLook` where it is not. `OneFetchPerStream` and
  `DropIsHarmlessIff` prove that such a drop is the exact condition.
- A temperature worker that has been replaced can deliver one report after those of its successor, exactly when it had
  passed its check before: `LateReportIff`, `LateReportLandsLast`.

## Model

| member | source | states |
|---|---|---|
| `Session.SessionIsTransparent` | internal/bridge/bridge.go:457-466 | Over every run, the bytes a relay-side decoder recovers, from any prefix of what reached the relay and in any cuts, are a prefix of what was read from the client, which is a prefix of what the client sent; what is counted as forwarded is within what all of the relay's bytes decode to, and after a clean end they are equal and their number is the reported one |
| `Session.FailsOnlyByFaults` | internal/bridge/bridge.go:457-466 | A session has failed only in a run with a failed dial, an abort, a read that breaks, a dry random source or a broken write, and in such a run it never ends as if nothing was |
| `Session.CarriesEverything` | internal/bridge/bridge.go:457-466 | In a run without any of these, once nothing but an abort can still happen the session has ended cleanly and everything the client sent, up to the one end of its stream, was forwarded |
| `Session.SessionsEnd` | internal/bridge/bridge.go:627-666 | A session makes at most two steps for each read of the client and seven more |
| `Session.GoneIsLeft` | internal/bridge/bridge.go:627-648 | In every run the client counts as gone exactly when it went away before the watch was told to stop |
| `Session.DialIsWatched` | internal/bridge/bridge.go:621-648 | While the relay is dialled the client is being read, unless it is gone |
| `Session.WritesAreMade` | internal/magic/tunnel.go:245-254 | Without a fault each replay and each write of the copy loop is one write to the relay socket |
| `Session.RunKeeps` | internal/bridge/bridge.go:627-666 | Every step of the watch, the replay and the copy loop keeps the two invariants: what is held plus what was forwarded is what was read, and exactly the wire stream of the forwarded bytes reached the relay |
| `Session.ForwardKeeps` | internal/magic/tunnel.go:245-254 | A write of the held bytes either ends the session with a prefix of the wire stream at the relay, or carries exactly the held bytes on |
| `Session.StepReads` | internal/bridge/bridge.go:627-648 | What was read and what the socket still holds stay the whole client stream, in order |
| `Session.EncodeHeld` | internal/magic/token_crypto.go:55-81 | Encoding the held bytes fails outright or continues the one wire stream of the session |
| `CopyLoops.ClientWatch.Read` | internal/bridge/bridge.go:627-648 | The watch keeps every byte it read, in order, and reports the client gone only for an error that stop did not cause |
| `CopyLoops.CopyToClient` | internal/bridge/bridge.go:764-798 | The client receives the decoding of exactly the relay bytes consumed, cut short only by a failed write; the reported total is what it received; and the loop ends as the socket did: with the end of the stream, the missed deadline, the read error or the broken write |
| `CopyLoops.ReadTunnel` | internal/magic/tunnel.go:219-240 | One read of the copy loop conserves the stream, gives bytes or the error of its last socket read, and an error comes with nothing left over |
| `CopyLoops.ReadProgress` | internal/magic/tunnel.go:219-240 | A read with room for a byte shortens what is left to read or reports an error |
| `SessionSlots.SlotsAreCounted` | internal/bridge/bridge.go:802-816 | In every interleaving of loads, swaps and releases `active` is the number of sessions that hold a slot, and never above a positive limit |
| `SessionSlots.TurnedAwayOnlyWhenFull` | internal/bridge/bridge.go:805-812 | A session is turned away at its load exactly when as many sessions hold a slot as the limit allows |
| `SessionSlots.RoomIsGiven` | internal/bridge/bridge.go:802-816 | Where there is room, or no cap, a session that asks and is not disturbed gets a slot by at most two steps of its own |
| `SessionSlots.SwapFailsOnlyToAnother` | internal/bridge/bridge.go:808-815 | A swap fails only where another session took or gave back a slot since the load |
| `SessionSlots.SlotsAreGivenBack` | internal/bridge/bridge.go:384-390 | Who holds a slot can give it back at any time, and that frees exactly one |
| `SessionSlots.NewcomersArrive` | internal/bridge/bridge.go:802-804 | A newcomer can always ask |
| `RefusalCooldown.OneRefusalPerWait` | internal/bridge/bridge.go:542-556 | Of the sessions that waited out the same refusal at most one records a refusal of its own |
| `RefusalCooldown.OneWaiterAsks` | internal/bridge/bridge.go:547-552 | At most one waiting session holds the probe, the probe names it, and a session that is done does not keep it |
| `RefusalCooldown.HolderCanLeave` | internal/bridge/bridge.go:547-556 | The holder of the probe can always go on by itself to its end, with the probe free afterwards |
| `RefusalCooldown.SharedAnswerIsNewer` | internal/bridge/bridge.go:577-584 | An answer taken without asking was given to another session, after the session that takes it arrived |
| `RefusalCooldown.WaitsOutTheCooldown` | internal/bridge/bridge.go:528-572 | A session waits exactly while the cooldown after the latest refusal it read is not over, and its timer is set for the moment it is; otherwise it dials |
| `RefusalCooldown.WaiterStartsInQuiet` | internal/bridge/bridge.go:528-556 | A session that waited until its timer fired, or lives without a cooldown, starts to dial only when the latest refusal is a full cooldown old |
| `RefusalCooldown.DeciderStartsInQuietIff` | internal/bridge/bridge.go:561-572 | A session that need not wait starts in quiet if nothing was recorded between its read of the record and its read of the clock and, unless it stalled for a whole cooldown between the two, only then |
| `RefusalCooldown.DeciderCanStartTooSoon` | internal/bridge/bridge.go:561-572 | For every cooldown a run in which a session starts to dial at the very moment of a recorded refusal |
| `RefusalCooldown.RetryInQuietIff` | internal/bridge/bridge.go:681-724 | A session that started in quiet makes a further attempt in quiet exactly when no refusal recorded since is younger than the cooldown, within one cooldown of its start exactly when none was recorded; what is recorded meanwhile is never its own and, where it holds the probe, never that of a session that waited |
| `RefusalCooldown.RetryCanComeTooSoon` | internal/bridge/bridge.go:681-724 | For every cooldown and any retries a run in which a retry comes at the very moment another session is refused |
| `RefusalCooldown.AttemptsAreBounded` | internal/bridge/bridge.go:684-722 | In every interleaving a session makes at most one attempt more than the retries |
| `RefusalCooldown.NoAttemptAfterRefusal` | internal/bridge/bridge.go:717-721 | No session attempts again after the relay refused it |
| `RefusalCooldown.OutcomesAreEarned` | internal/bridge/bridge.go:499-556 | In every run a session that has left came back with what happened to it: a tunnel only if its attempt opened, a failure only after the last retry failed, a cancellation only if it was cancelled, a refusal only if it got one, the answer of another only without having asked; until then it goes on |
| `RefusalCooldown.TurnComes` | internal/bridge/bridge.go:528-556 | From wherever it waits a session can come to ask, or to share an answer, without giving up |
| `RefusalCooldown.WaitersCanGiveUp` | internal/bridge/bridge.go:533-552 | Whoever waits can give up at once, and leaves record and probe to the others |
| `BridgeDial.Bridge.RefusalWait` | internal/bridge/bridge.go:561-572 | With a cooldown and a refusal on record the wait reaches exactly to the end of the cooldown after the latest refusal, whose time is returned; otherwise there is none |
| `BridgeDial.Bridge.RefusalSince` | internal/bridge/bridge.go:577-584 | An answer exactly when one newer than the given refusal is on record, and then the latest |
| `BridgeDial.Bridge.NoteRefusal` | internal/bridge/bridge.go:588-593 | The record grows by this refusal, and the answer kept is its answer |
| `BridgeDial.Bridge.DialWithRetry` | internal/bridge/bridge.go:681-724 | At most dialRetries + 1 attempts, each but the last a fault with the context alive and no backoff cut short, backoffs that double, the reason it ended, and a refusal recorded exactly when it ends with one and the context alive |
| `BridgeDial.DialIsARun` | internal/bridge/bridge.go:681-724 | Every such dial is a run of that session in the cooldown machine, from where it starts to dial to where it leaves, with the same outcome and the same record, so what holds of the machine holds of the loop |
| `TokenCrypto.ChunkingIndependence` | internal/magic/token_crypto.go:83-104 | However a ciphertext is cut, also inside the bootstrap, the decoder outputs concatenate to the one decoding of it |
| `TokenCrypto.RoundTrip` | internal/magic/token_crypto.go:55-104 | For any plaintext chunks and any cutting of any prefix of the ciphertext, the decoder recovers a prefix of the plaintext, and all of it from all of it |
| `TokenCrypto.EncodeContinues` | internal/magic/token_crypto.go:55-81 | Each Encode continues the one wire stream of its direction: the bootstrap once, then the cipher of all plaintext so far |
| `TokenCrypto.DecodeContinues` | internal/magic/token_crypto.go:83-104 | Each Decode continues the one decoding of everything received, wherever the bootstrap was cut |
| `TokenCrypto.EncodeAllIsWire` | internal/magic/token_crypto.go:55-81 | The chunks an encoder emits concatenate to the wire stream of the concatenated plaintext |
| `TokenCrypto.DecodedWire` | internal/magic/token_crypto.go:55-104 | Decoding the wire stream of a plaintext gives the plaintext |
| `TokenCrypto.DecodedPrefix` | internal/magic/token_crypto.go:83-104 | A prefix of a stream decodes to a prefix of its decoding |
| `TokenCrypto.DecipherEncipher` | internal/magic/token_crypto.go:106-122 | The two transforms are inverse from every key and state, deciphering what was enciphered |
| `TokenCrypto.EncipherDecipher` | internal/magic/token_crypto.go:106-122 | and enciphering what was deciphered |
| `TokenCrypto.EncipherIsBitwise` | internal/magic/token_crypto.go:106-113 | From the arithmetic alone: each bit of the cipher is set where those of plaintext and key differ, at places that move on by the sum of key and plaintext byte with its lowest bit set, around the key |
| `TokenCrypto.SessionKeyIsBitwise` | internal/magic/token_crypto.go:124-130 | Each bit of the session key, from the byte before it (0xaa at first), the key byte moved down by a bit and the prefix byte moved up by one |
| `Bits.XorBit` | internal/magic/token_crypto.go:109-109 | Each of the eight bits of an exclusive or is set exactly where those of its arguments differ |
| `Bits.BitsDetermine` | internal/magic/token_crypto.go:109-109 | and a number is known by its bits |
| `TokenCrypto.SmallestStream` | internal/magic/token_crypto.go:55-81 | A stream of one byte worked out: token 41, random bytes 00 1e, plaintext 4f give 15 20 ef |
| `TokenCrypto.StateAfter` | internal/magic/token_crypto.go:106-113 | The state stays in the key after any plaintext |
| `TokenCrypto.DrawIsFlat` | internal/magic/token_crypto.go:147-162 | Rejection makes every value of the range come from the same number of source bytes |
| `TokenCrypto.DrawTakesTheFirstKept` | internal/magic/token_crypto.go:147-162 | A draw takes the first byte below the largest multiple of the span that fits a byte, leaves what follows it, and runs dry only without one |
| `TokenCrypto.OpeningIsInRange` | internal/magic/token_crypto.go:60-72 | A drawn prefix has its bytes between 0x15 and 0xff, and its marker is above the length of the token |
| `TokenCrypto.MixAt` | internal/magic/token_crypto.go:124-130 | Folding a prefix into the key makes each byte from the running value, the old key byte and the prefix byte at its place |
| `TokenCrypto.ApplyBootstrap` | internal/magic/token_crypto.go:124-130 | The array becomes the session key of its old contents and the prefix, in place |
| `TokenCrypto.TransformEncode` | internal/magic/token_crypto.go:106-113 | The loop computes the cipher and the state after it |
| `TokenCrypto.TransformDecode` | internal/magic/token_crypto.go:115-122 | The loop computes the plaintext and the state after it |
| `TokenCrypto.TokenEncoder.RandomRange` | internal/magic/token_crypto.go:147-162 | A byte of the range by rejection, or an error for an empty range or a dry source |
| `TokenCrypto.TokenIsAcceptedIff` | internal/magic/token_crypto.go:132-142 | A token is accepted exactly if it has 1 to 47 bytes, all printable and none a space |
| `TokenCrypto.TokenEncoder.Bootstrap` | internal/magic/token_crypto.go:60-78 | Draws prefix and marker and starts the session, or fails with key, state and flag as they were |
| `TokenCrypto.TokenEncoder.Encode` | internal/magic/token_crypto.go:55-81 | The object does exactly a step of the encoder machine; an error leaves the encoder as it was |
| `TokenCrypto.TokenDecoder.Decode` | internal/magic/token_crypto.go:83-104 | The object does exactly a step of the decoder machine |
| `Tunnels.ReadIsTransparent` | internal/magic/tunnel.go:219-240 | For any stream chunks and any buffer sizes, outputs plus leftover are the decoding of the bytes consumed |
| `Tunnels.ReadAllConserves` | internal/magic/tunnel.go:219-240 | The same from any state a tunnel can be in |
| `Tunnels.ReadConserves` | internal/magic/tunnel.go:219-240 | One read conserves bytes consumed, delivered and left over, and returns no more than was asked for |
| `Tunnels.ReadEndsAsTheSocket` | internal/magic/tunnel.go:219-240 | A read with room gives bytes, or ends with the error of the last socket read it made or with the end of the socket; it passes over no error on the way |
| `Tunnels.ReadBound` | internal/magic/tunnel.go:219-240 | One call makes at most key length + 2 stream reads when each yields a byte or an error |
| `Tunnels.FetchBound` | internal/magic/tunnel.go:223-239 | It makes at most one read more than bootstrap bytes are missing |
| `Tunnels.Tunnel.Read` | internal/magic/tunnel.go:219-240 | The object does exactly the read of the reader machine |
| `Tunnels.Tunnel.Write` | internal/magic/tunnel.go:245-254 | Encodes with the encoder of the tunnel and reports success only when the stream took the cipher |
| `OfflineDecoder.ReassemblyIsExact` | research/tools/runtime-protocol-capture/decode_magic_stream.py:46-61 | For slices of one stream in any order and overlap: an error exactly when there is a hole before the furthest end, otherwise exactly the slice from the start to that end |
| `OfflineDecoder.FirstIsLeast` | research/tools/runtime-protocol-capture/decode_magic_stream.py:47-50 | Without a given start the reassembly begins at the earliest segment |
| `OfflineDecoder.ExtendExact` | research/tools/runtime-protocol-capture/decode_magic_stream.py:53-60 | The same for sorted segments from any expected position |
| `OfflineDecoder.CaptureDecodesLikeLive` | research/tools/runtime-protocol-capture/decode_magic_stream.py:81-103 | A reassembled capture of an encoder decodes to what the live decoder recovers from the same bytes under any chunking: a prefix of what was sent, all of it when the capture is whole |
| `OfflineDecoder.Reassemble` | research/tools/runtime-protocol-capture/decode_magic_stream.py:46-61 | The loop computes the reassembly of the sorted segments |
| `OfflineDecoder.Bootstrap` | research/tools/runtime-protocol-capture/decode_magic_stream.py:81-88 | Refuses a prefix of the wrong length with the key untouched, otherwise leaves the session key of the live decoder and returns its state |
| `OfflineDecoder.DecodeBatch` | research/tools/runtime-protocol-capture/decode_magic_stream.py:91-103 | Refuses data without a whole bootstrap, otherwise returns the decoding of the live decoder and the overhead |
| `OfflineDecoder.RollsLikePython` | research/tools/runtime-protocol-capture/decode_magic_stream.py:84-87 | The shifts, masks and exclusive ors of the Python text fold the prefix as the live decoder does |
| `OfflineDecoder.StepsLikePython` | research/tools/runtime-protocol-capture/decode_magic_stream.py:98-102 | and its or and remainder move the state as the live decoder does |
| `OfflineDecoder.FoldIn` | research/tools/runtime-protocol-capture/decode_magic_stream.py:84-87 | The loop over unbounded integers leaves the session key of the live decoder |
| `OfflineDecoder.DecodeFrom` | research/tools/runtime-protocol-capture/decode_magic_stream.py:97-103 | The loop over unbounded integers returns the plaintext of the live decoder |
| `RelayOpens.ParseMarshal` | internal/magic/relay_open.go:25-93 | Every value that prints parses back to itself |
| `RelayOpens.MarshalParse` | internal/magic/relay_open.go:46-93 | Every accepted frame reprints to the same bytes |
| `RelayOpens.PrintedLayout` | internal/magic/relay_open.go:25-43 | Each field of a printed frame is at its place, in its width, with one space between |
| `RelayOpens.PrintsIff` | internal/magic/relay_open.go:25-41 | A value prints exactly if each number fits its digits and each name, printable and without a space, its length |
| `RelayOpens.AcceptedAreThePrinted` | internal/magic/relay_open.go:25-93 | The texts Parse accepts are exactly those that values in range print to |
| `RelayOpens.FramesDelimitThemselves` | internal/magic/relay_open.go:25-93 | A frame followed by ciphertext splits in only one way |
| `ControlDiscovery.OpenFrameFailsOnlyOnNumber` | internal/magic/tunnel.go:99-180 | Once the request printed and the response was accepted in either form, the open frame fails exactly for a connection number above 999, and parses back to that number, the identifier, the session name and the port of the form |
| `ControlDiscovery.OpensIff` | internal/magic/tunnel.go:99-180 | A stream is opened exactly if the request prints and the answer is accepted, in WEB2 mode or in short form, with a number that fits; otherwise the first failure is the one reported |
| `ControlDiscovery.ParsePrintedResponse` | internal/magic/control_discovery.go:115-172 | Printing any valid response and parsing it gives it back |
| `ControlDiscovery.ParsedResponseIsValid` | internal/magic/control_discovery.go:115-172 | Every accepted response is a valid one |
| `ControlDiscovery.ParsedSaysTheFields` | internal/magic/control_discovery.go:115-172 | An accepted response says what its fields say, and begins with the keyword in any case |
| `ControlDiscovery.RefusalIsHeard` | internal/magic/control_discovery.go:115-138 | A number that is not positive is heard as a refusal whatever else the answer holds |
| `ControlDiscovery.OnlyNumbersRefuse` | internal/magic/control_discovery.go:115-138 | and nothing else is |
| `ControlDiscovery.RequestCarriesItsFields` | internal/magic/control_discovery.go:33-48 | The relay reads off a printed request its five fields and nothing else |
| `ControlDiscovery.RequestPrintsIff` | internal/magic/control_discovery.go:33-48 | A request prints exactly if each number fits its digits and each name its length |
| `Decimal.PadValue` | internal/magic/relay_open.go:29-43 | A padded number has its width and its value |
| `Decimal.ValuePad` | internal/magic/relay_open.go:95-105 | Padding the value of a digit string gives the digit string back |
| `Decimal.AtoiItoa` | internal/magic/control_discovery.go:174-183 | Every 64-bit number parses back from what it prints to |
| `Decimal.ItoaIsPlain` | internal/magic/control_discovery.go:46-47 | A number prints as its digits without a needless zero, and with a minus exactly if it is below zero |
| `Decimal.AtoiReads` | internal/magic/control_discovery.go:124-127 | Digits, with a sign or without, are read as their value if that fits 64 bits |
| `Decimal.OnlyNumbersAreRead` | internal/magic/control_discovery.go:124-127 | and nothing else is read at all |
| `Registries.Build` | internal/app/registry.go:63-140 | The loops compute exactly the registry of the specification, errors included |
| `Registries.EachCameraGetsItsAddress` | internal/app/registry.go:82-123 | A recorded camera keeps its address whatever the probe says; a new one gets the least port, from the base port for the first camera and from a thousand above it and its position for others, that no usable record names, no earlier camera got and nobody uses |
| `Registries.BuildFailsWithoutAPort` | internal/app/registry.go:102-123 | With a sound base address a build fails only for a new camera whose search finds every port up to the last taken or in use |
| `Registries.BaseIsUsedIff` | internal/app/registry.go:64-71 | A base address is used as it is exactly if its number is a port |
| `Registries.RecordCountsIff` | internal/app/registry.go:157-174 | A record counts exactly if its host is this one and its number a port |
| `Registries.ListedInOrder` | internal/app/registry.go:72-75 | The registry has exactly the cameras listed, in the order of their identifiers |
| `Registries.OldNameIsTheFirst` | internal/app/registry.go:97-139 | The old name goes to the first camera, and to none where there is none |
| `Registries.EachCameraGetsItsName` | internal/app/registry.go:124-135 | Each camera has the first free of base, base-2, base-3 and so on, the base made of its name or of its identifier |
| `Registries.CameraNeverMoves` | internal/app/registry.go:144-175 | A camera in consecutive setups that feed the records back never moves |
| `Registries.PortsStayDistinct` | internal/app/registry.go:63-152 | Over any chain of setups that feed the records back, every registry has pairwise distinct ports |
| `Registries.PortsAreDistinct` | internal/app/registry.go:82-123 | Records on different ports give a registry on different ports |
| `Registries.StreamNamesAreDistinct` | internal/app/registry.go:99-135 | No two cameras of a registry share a stream name |
| `Registries.ListingOrderIsIrrelevant` | internal/app/registry.go:72-75 | With distinct identifiers the whole result does not depend on the order the credentials are listed in |
| `Registries.BookKeepsAddresses` | internal/app/registry.go:144-152 | The address book has each camera of distinct identifiers with its address, and nobody else |
| `Registries.BookSkipsTheNameless` | internal/app/registry.go:144-152 | A camera without an identifier has no place in it |
| `Registries.LeastFree` | internal/app/registry.go:178-186 | The least free port at or above the wanted one; none when all are taken |
| `Registries.FreePort` | internal/app/registry.go:178-186 | The search finds the least free port, or reports the wanted one |
| `Registries.ClaimRecorded` | internal/app/registry.go:82-96 | Exactly the ports of the usable records are claimed before any search |
| `Registries.BuildCameras` | internal/app/registry.go:98-139 | The second loop assigns the addresses and names of the specification |
| `Registries.Addresses` | internal/app/registry.go:144-152 | The loop computes the address book |
| `Registries.Recorded` | internal/app/registry.go:157-174 | Only an address on this host with a port in range counts as a record |
| `HostPorts.SplitJoin` | internal/app/registry.go:121-121 | A joined host and port split back, with or without a colon in the host |
| `StreamNames.NameOfIsIdempotent` | internal/app/registry.go:203-222 | A name derived from a derived name is the same; exactly the canonical names are their own |
| `StreamNames.NameIsCanonical` | internal/app/registry.go:203-222 | A derived name is groups of lowered letters and digits with single dashes between |
| `StreamNames.NameKeepsTheLetters` | internal/app/registry.go:203-222 | A derived name has the lowered letters and digits of the name, all of them in order; without any it is camera |
| `StreamNames.StreamName` | internal/app/registry.go:203-222 | The builder loop computes the name |
| `StreamNames.SearchIsShort` | internal/app/registry.go:128-133 | The suffix search ends after at most as many steps as names are used |
| `StreamNames.Unused` | internal/app/registry.go:130-132 | It finds the first candidate that is not used |
| `StreamNames.FindName` | internal/app/registry.go:128-133 | The loop returns that candidate |
| `Runtimes.NothingClashes` | internal/app/app.go:187-250 | For fit registries, at every step of every interleaving of startup, reloads and restart loops in which no reload begins before Run has started its cameras, no two restart loops that are not done share a key or an address, and what is being started shares neither with them |
| `Runtimes.OneLoopPerCamera` | internal/app/app.go:187-250 | So no identifier and no address ever has two restart loops that are not done |
| `Runtimes.StepKeepsGood` | internal/app/app.go:187-250 | Every step, reloads of fit registries beginning once Run has started its cameras, keeps the invariant this rests on |
| `Runtimes.ReloadReconciles` | internal/app/app.go:187-250 | A finished reload of a fit registry from a state the invariant holds of leaves exactly the wanted keys without those that failed to start; an unchanged camera keeps its very supervisor, any other has a new one with the wanted camera |
| `Runtimes.ReloadRunsTheRegistry` | internal/app/app.go:187-250 | A finished reload of a fit registry in which nothing failed to start runs exactly the cameras of that registry |
| `Runtimes.StartsTheRegistry` | internal/app/app.go:145-166 | Once it has started its cameras, Run has started exactly those of its registry |
| `Runtimes.NoBridgeIsLost` | internal/app/app.go:145-170 | In every run a restart loop is over only where it or the runtime was cancelled; no failure does that |
| `Runtimes.ServesAgain` | internal/app/app.go:366-422 | From every place a bridge that was not cancelled comes to serve, with its own camera and by at most four moves of its own |
| `Runtimes.NobodyStopsByItself` | internal/app/app.go:145-181 | A runtime that nobody cancelled, whose start did not fail and that no reload went over, has lost no bridge and is not stopping |
| `Runtimes.CancelEndsEveryLoop` | internal/app/app.go:145-181 | It can be cancelled at any time, and then every loop can come to its end by its own moves |
| `Runtimes.FailedStartEndsEverything` | internal/app/app.go:157-164 | So it is when a camera cannot be started at first, and no reload begins after that |
| `Runtimes.StopsForGood` | internal/app/app.go:171-177 | Cancelled and started, Run can stop, and no reload begins after that |
| `Runtimes.KeysAgreeIff` | internal/app/app.go:503-508 | Two cameras have one key exactly if they have one identifier, or none and one name |
| `Runtimes.SameIsUntouched` | internal/app/app.go:206-223 | During a reload nothing but its own restart loop changes the supervisor of an unchanged camera |
| `Runtimes.ReloadIsSafeIff` | internal/app/app.go:184-250 | From any state the invariant holds of, without a reload and not stopping, no run that begins with a reload of a fit registry ever clashes exactly when Run has started all its cameras |
| `Runtimes.EarlyReloadClashes` | internal/app/app.go:148-170 | From any such state in which Run has not, a fit registry and a run of reloads that ends in a clash |
| `Runtimes.EarlyReloadRunsTwice` | internal/app/app.go:148-170 | So for every non-empty fit registry Run begins with, a reload before its first camera is up is not safe |
| `Runtimes.CountersAreTrue` | internal/app/app.go:344-422 | In every run the counters are the bridges that serve, the cameras there are, and how often a bridge came back from serving with its context alive |
| `HealthPublishing.SettlesOnTheCountersIff` | internal/app/app.go:442-451 | The publishes under way end with the health state showing the counters, in whatever order they do, exactly when none of them has read a number that is no longer true and, if there are none, it shows them already |
| `HealthPublishing.OvertakingIsTheHarm` | internal/app/app.go:388-451 | Where all publishes under way are fresh, a step of the runtime after which one is under way leaves it so that they all end on the counters exactly when it changes no number that one of them has already read |
| `HealthPublishing.TidyRunsShowWhatServes` | internal/app/app.go:148-451 | In every run without such a step and without a failed start, the health state says how many bridges serve and how many cameras there are whenever Run has started them, no reload is under way and everybody has published |
| `HealthPublishing.HealthCanStayStale` | internal/app/app.go:148-180 | For every registry with a camera a run after which everybody has published and the health state says that no bridge serves while one does, until a bridge starts or stops to serve, a reload ends or Run stops |
| `Runtimes.BackoffDoublesUpToTheMaximum` | internal/app/app.go:493-499 | After k failures in a row the wait is the first one doubled k times, cut at the maximum |
| `Runtimes.WaitsFollowTheStops` | internal/app/app.go:377-420 | In every run the wait of a restart loop is the first one doubled once for each wait since its last stable stop, cut at the maximum; unstable stops and failed binds count alike |
| `Runtimes.WaitsAreBounded` | internal/app/app.go:368-422 | Every wait of every restart loop is between the two configured ones |
| `Runtimes.Normalised` | internal/app/app.go:120-143 | The waits New settles on are positive and ordered, and sound ones are kept |
| `Runtimes.BuiltIsFit` | internal/app/app.go:503-508 | Cameras with distinct identifiers and records on different ports make a fit registry |
| `Runtimes.ChainIsFit` | internal/app/registry.go:63-152 | and so does every setup of a chain that feeds its records back |
| `Runtimes.FinishReconciles` | internal/app/app.go:225-250 | The last step of that: when everything is stopped and tried, the map is the reconciled one |
| `Runtimes.Runtime.Add` | internal/app/app.go:344-355 | The map and the total after adding a supervisor with a listening server |
| `Runtimes.Runtime.Remove` | internal/app/app.go:357-364 | The key is removed only while it still names this supervisor |
| `Runtimes.Runtime.Supervise` | internal/app/app.go:368-422 | One move of a restart loop changes exactly its own supervisor, the serving count and the restarts |
| `Runtimes.Runtime.Drain` | internal/app/app.go:224-227 | A cancelled restart loop reaches its end by its own moves alone |
| `Runtimes.Runtime.Reload` | internal/app/app.go:187-250 | Refused with nothing changed for an empty registry or a stopping runtime; otherwise it fails only for cameras that cannot be bound and, from a state the invariant holds of and for a fit registry, reconciles |
| `MqttDiscovery.BrokerFollowsTheMaps` | internal/mqttdiscovery/service.go:156-220 | After any run of operations, disconnects and reconnects, while connected the broker retains for every registered camera exactly what the maps of the service say |
| `MqttHistory.MapsFollowTheCallers` | internal/mqttdiscovery/service.go:156-338 | After any run the maps say of every identifier what the callers asked since it was last removed, by the operations alone: the camera last registered, the availability last set and otherwise available, whether a temperature is supported and can be had |
| `MqttHistory.BrokerShowsWhatWasAsked` | internal/mqttdiscovery/service.go:156-375 | and while connected the broker shows exactly that for every registered camera, and that the bridge is there |
| `MqttHistory.LastPublishedIsShown` | internal/mqttdiscovery/service.go:201-310 | The broker has the temperature and the frame last published and not retired since, and while connected the two counts last published |
| `MqttHistory.BridgeIsShown` | internal/mqttdiscovery/service.go:222-375 | and it says of the bridge what its connection is: there from each connect on, gone once that is lost or closed |
| `MqttHistory.OfflineIsSilent` | internal/mqttdiscovery/service.go:156-375 | While the connection is down the service publishes nothing |
| `MqttDiscovery.AgreementNeedsSeparateObjects` | internal/mqttdiscovery/service.go:643-658 | That holds for all runs over some identifiers exactly when no two of them have the same object |
| `MqttDiscovery.SharedObjectBreaks` | internal/mqttdiscovery/service.go:313-338 | For any two identifiers with one object: connect, register both, remove one, and the other has lost its link entity |
| `MqttDiscovery.ApplySound` | internal/mqttdiscovery/service.go:156-375 | Every operation keeps the agreement |
| `MqttDiscovery.CameraAvailableSound` | internal/mqttdiscovery/service.go:268-278 | De-duplicating the availability keeps it |
| `MqttDiscovery.TemperatureAvailableSound` | internal/mqttdiscovery/service.go:179-197 | and so does de-duplicating the temperature availability, also for a camera that is not registered or not supported |
| `MqttDiscovery.TemperatureSupportedSound` | internal/mqttdiscovery/service.go:156-174 | and creating or retiring the temperature entity |
| `MqttDiscovery.ConnectSound` | internal/mqttdiscovery/service.go:353-375 | A reconnect republishes everything, in whatever order the map lists the cameras |
| `MqttDiscovery.CamerasAgree` | internal/mqttdiscovery/service.go:353-375 | Cameras published one after the other all agree in the end |
| `MqttDiscovery.CameraLookup` | internal/mqttdiscovery/service.go:422-504 | What publishing one camera makes of any topic |
| `MqttDiscovery.UpsertKeepsAvailability` | internal/mqttdiscovery/service.go:252-262 | A camera registered again keeps its availability, a new one begins as available, also at the broker |
| `MqttDiscovery.TemperatureStartsOffline` | internal/mqttdiscovery/service.go:156-174 | A temperature retired and supported again has its entity back and begins as unavailable |
| `MqttDiscovery.RemoveClears` | internal/mqttdiscovery/service.go:313-338 | Remove clears the discovery and media topics while connected, and leaves the availability and the snapshot URL |
| `MqttDiscovery.TopicsAreDistinct` | internal/mqttdiscovery/service.go:549-555 | No two topics are the same text, whatever the prefix and the base |
| `MqttHistory.CameraTopicTexts` | internal/mqttdiscovery/service.go:543-555 | The text of every topic of a camera |
| `MqttHistory.BridgeTopicTexts` | internal/mqttdiscovery/service.go:380-420 | and of the bridge |
| `MqttDiscovery.ObjectIsPlain` | internal/mqttdiscovery/service.go:643-658 | An object is one non-empty level of a topic |
| `MqttHistory.ObjectIsWhatIsKept` | internal/mqttdiscovery/service.go:643-658 | An object is the lowered letters, digits, dashes and underscores of the identifier, all else an underscore, without underscores at the ends, and camera where nothing is left |
| `MqttDiscovery.ObjectID` | internal/mqttdiscovery/service.go:643-658 | The builder loop computes the object |
| `MqttDiscovery.Service.Upsert` | internal/mqttdiscovery/service.go:237-262 | Refused cameras change nothing; accepted ones are stored, available unless known, and published while connected |
| `MqttDiscovery.Service.Remove` | internal/mqttdiscovery/service.go:313-338 | Forgets the camera, and clears its topics one by one while connected |
| `MqttDiscovery.Service.SetCameraAvailable` | internal/mqttdiscovery/service.go:268-278 | Stores for any camera, publishes only a change while connected |
| `MqttDiscovery.Service.SetTemperatureSupported` | internal/mqttdiscovery/service.go:156-174 | Refused for an unknown camera; otherwise stores and publishes the entity or its retirement |
| `MqttDiscovery.Service.SetTemperatureAvailable` | internal/mqttdiscovery/service.go:179-197 | Stores only for a registered camera, publishes only a change of a supported one while connected |
| `MqttDiscovery.Service.PublishTemperature` | internal/mqttdiscovery/service.go:201-220 | Refuses what is not between 0 and 50, marks the camera available, publishes for a supported one |
| `MqttDiscovery.Service.PublishFrame` | internal/mqttdiscovery/service.go:283-297 | Refuses what is not a JPEG and a camera that is not registered; otherwise retains the frame, while connected and where frames are published |
| `MqttDiscovery.Service.PublishStatus` | internal/mqttdiscovery/service.go:301-310 | Stores the counters and publishes them only while connected |
| `MqttDiscovery.Service.PublishCamera` | internal/mqttdiscovery/service.go:422-504 | The publishes of one camera, in order |
| `MqttDiscovery.Service.OnConnect` | internal/mqttdiscovery/service.go:353-375 | Lists the registered cameras, sorts them and publishes everything |
| `MqttDiscovery.Service.OnLost` | internal/mqttdiscovery/service.go:222-233 | The connection is down and the will is out |
| `MqttDiscovery.Service.Close` | internal/mqttdiscovery/service.go:340-351 | Says offline only while connected |
| `SnapshotCache.OneFetchPerEntry` | internal/snapshot/snapshot.go:378-401 | No entry ever has two fetches running |
| `SnapshotCache.OneFetchPerStream` | internal/snapshot/snapshot.go:378-401 | A stream that is never dropped while a fetch for it runs never has two fetches running, however many requests wait |
| `SnapshotCache.DropIsHarmlessIff` | internal/snapshot/snapshot.go:183-201 | From any state the invariant holds of: after a drop no further run without such a drop has two fetches for the stream exactly when none was running at the drop |
| `SnapshotCache.SecondFetch` | internal/snapshot/snapshot.go:183-239 | A stream dropped with a fetch running, listed again and warmed, has two |
| `SnapshotCache.SecondFetchByLook` | internal/snapshot/snapshot.go:183-347 | A stream dropped with a fetch running and a request let in and still to look has two as soon as that request looks, without any list naming it again |
| `SnapshotCache.DroppedStaysOutIff` | internal/snapshot/snapshot.go:183-300 | From any state the invariant holds of: a dropped stream stays out of the table in every run that does not list it again exactly when no request for it was let in and still to look |
| `SnapshotCache.EntryStaysUntilAList` | internal/snapshot/snapshot.go:183-201 | An entry, also one that came back like this, stays the same one until the next accepted list without its stream, and goes with that list |
| `SnapshotCache.ServedFramesAreRight` | internal/snapshot/snapshot.go:330-372 | Every served frame had been fetched for the stream asked for, and was younger than FreshFor or, after a wait, no older than StaleFor when it was chosen |
| `SnapshotCache.CurrentFrameIsItsOwn` | internal/snapshot/snapshot.go:389-399 | The frame of a stream was brought by a fetch started for the very entry that shows it |
| `SnapshotCache.DroppedFetchIsHarmless` | internal/snapshot/snapshot.go:389-399 | The end of a fetch for a dropped entry changes nothing that can be looked up |
| `SnapshotCache.FrameIsLastBrought` | internal/snapshot/snapshot.go:389-399 | In every run an entry shows what the last successful fetch for it brought, whatever failed since |
| `SnapshotCache.RequestsAreThoseAsked` | internal/snapshot/snapshot.go:262-330 | In every run the clock has moved by the time that passed, and there is a request for each that was let in |
| `SnapshotCache.FramesNeverGoBack` | internal/snapshot/snapshot.go:378-401 | In every run the frame of an entry never goes away and never goes back in time |
| `SnapshotCache.RefusedOnlyWithoutAUsableFrame` | internal/snapshot/snapshot.go:350-372 | After any run a waiting request is refused exactly when its stream has no entry, no fetch for that entry ever succeeded, or the last that did ended more than StaleFor ago; otherwise it gets what that one brought |
| `SnapshotCache.FreshFramesAreServedAtOnce` | internal/snapshot/snapshot.go:330-347 | After any run a request that looks is served at once, with the frame of the last successful fetch and with nothing else happening, exactly when that fetch ended less than FreshFor ago; otherwise it waits for the fetch running for its stream, started only if there was none |
| `SnapshotCache.StepKeepsGood` | internal/snapshot/snapshot.go:183-401 | Every step keeps the invariant these rest on |
| `SnapshotCache.Normalised` | internal/snapshot/snapshot.go:129-140 | The ages New settles on are positive, and sound ones are kept |
| `SnapshotCache.StreamSets` | internal/snapshot/snapshot.go:158-175 | Accepts exactly lists with a stream and warm streams among them |
| `SnapshotCache.Cache.StartLocked` | internal/snapshot/snapshot.go:378-401 | The fetch that runs for the stream afterwards, started only when there was none |
| `SnapshotCache.Cache.Get` | internal/snapshot/snapshot.go:330-347 | The first half of get does its step |
| `SnapshotCache.Cache.GetEnds` | internal/snapshot/snapshot.go:350-372 | and the second half its |
| `SnapshotCache.Cache.FetchEnds` | internal/snapshot/snapshot.go:389-399 | The end of a fetch writes its own entry |
| `SnapshotCache.Cache.SetStreams` | internal/snapshot/snapshot.go:183-201 | Refused lists change nothing; accepted ones drop the entries of other streams |
| `SnapshotCache.Cache.WarmUp` | internal/snapshot/snapshot.go:230-239 | One fetch is running for every warm stream afterwards |
| `TemperatureSupervisor.ReportsWereOwned` | internal/devicecontrol/supervisor.go:120-175 | Every report that reached the sink followed a check of its worker, or its retirement, made while that worker was the registered one of its camera |
| `TemperatureSupervisor.LostForGood` | internal/devicecontrol/supervisor.go:102-106 | A worker that lost its registration never passes the check again |
| `TemperatureSupervisor.OneLateReport` | internal/devicecontrol/supervisor.go:124-145 | After that it reports at most once more: what it had already checked |
| `TemperatureSupervisor.LateReportIff` | internal/devicecontrol/supervisor.go:98-133 | A worker that has lost its registration still reports in some run exactly while it has checked and not yet reported |
| `TemperatureSupervisor.LateReportLandsLast` | internal/devicecontrol/supervisor.go:124-133 | Whatever happens in the meantime, reports of the successor included, that report can still follow and is then the last the sink has heard |
| `TemperatureSupervisor.AnyCheckCanBeLate` | internal/devicecontrol/supervisor.go:53-145 | Every passed check can become such a report: a reconcile may take the registration right after it |
| `TemperatureSupervisor.RetireIsOwn` | internal/devicecontrol/supervisor.go:110-118 | A retiring worker gives up its own registration and nobody else's |
| `TemperatureSupervisor.ReconcileRegisters` | internal/devicecontrol/supervisor.go:53-78 | Afterwards exactly the usable wanted cameras have a worker: the same one where the camera is unchanged, a new one otherwise |
| `TemperatureSupervisor.StepKeepsGood` | internal/devicecontrol/supervisor.go:53-175 | Every step keeps registration, its loss and the checks in step |
| `TemperatureSupervisor.RunTraces` | internal/devicecontrol/supervisor.go:120-175 | Every report under way or made is stamped with the step of the check that allowed it |
| `TemperatureSupervisor.ReportsAreWhatWasHeard` | internal/devicecontrol/supervisor.go:120-175 | In every run a report that reaches the sink is what its worker heard last, by the events alone |
| `TemperatureSupervisor.OnlyTheCapableAreRead` | internal/devicecontrol/supervisor.go:144-170 | In every run a camera is only read while the last it said is that it has a temperature |
| `TemperatureSupervisor.WorkersGoForAReason` | internal/devicecontrol/supervisor.go:120-175 | A worker goes only when it was stopped or its camera said that it has no temperature |
| `TemperatureSupervisor.ComesToReport` | internal/devicecontrol/supervisor.go:142-175 | A registered worker without such a reason comes, by its own moves, to report what its camera reads |
| `TemperatureSupervisor.TheReplacedAreStopped` | internal/devicecontrol/supervisor.go:53-88 | In every run the registered worker of a camera is not stopped unless the context is cancelled, and one that is not registered any more is, unless it retired by itself |
| `TemperatureSupervisor.StoppedWorkersEnd` | internal/devicecontrol/supervisor.go:120-190 | A stopped worker comes, by at most six moves of its own, to its end |
| `TemperatureSupervisor.CloseStopsAll` | internal/devicecontrol/supervisor.go:80-88 | Closing leaves no camera with a worker, and stops every worker that had one |
| `TemperatureSupervisor.LastUsableIsWanted` | internal/devicecontrol/supervisor.go:53-62 | Wanted are the cameras that lack nothing, each as it is listed last |
| `TemperatureSupervisor.Supervisor.Reconcile` | internal/devicecontrol/supervisor.go:53-78 | The two loops do the step of the machine, whatever order the maps are walked in |
| `TemperatureSupervisor.Supervisor.Drop` | internal/devicecontrol/supervisor.go:63-71 | The first loop keeps, cancels and forgets as specified |
| `TemperatureSupervisor.Supervisor.Retire` | internal/devicecontrol/supervisor.go:110-118 | Reports whether the worker was the current one, and unregisters it then |
| `TemperatureSupervisor.Supervisor.IsCurrent` | internal/devicecontrol/supervisor.go:102-106 | Whether the worker is the registered one of its camera |
| `TemperatureSupervisor.Supervisor.Cancel` | internal/devicecontrol/supervisor.go:81-81 | The context is cancelled and nothing else happens |
| `TemperatureSupervisor.Supervisor.Close` | internal/devicecontrol/supervisor.go:80-88 | Cancels the context first and then, as a step of its own, every registered worker, and forgets them all |
| `PairingProvider.LoginsUseLiveCodes` | internal/fivegencare/provider.go:142-181 | In every run every login uses a challenge that was stored at the start or that the server had sent before it, and one that carries a date is younger than its lifetime |
| `PairingProvider.RejectedCodeChangesNothing` | internal/fivegencare/provider.go:142-163 | A code that is not accepted leaves the stored state as it was |
| `PairingProvider.SentCodePairsInTime` | internal/fivegencare/provider.go:113-181 | After a code was sent and saved, and any number of codes not accepted, a code pairs exactly when it is not blank, the server takes it, the state loads and saves, and the sent code is younger than its lifetime; it pairs with one login, of that code |
| `PairingProvider.DeadCodeIsDropped` | internal/fivegencare/provider.go:300-318 | A restore never tries a challenge that has aged out; where an address is known the first save takes it off the disk, without one it stays there |
| `PairingProvider.NoCodeUnasked` | internal/fivegencare/provider.go:305-311 | Without AutoRequestCode a restore never sends a code |
| `PairingProvider.UnpairedRestoreDecides` | internal/fivegencare/provider.go:292-335 | A restore of an unpaired account only says what pairing needs, or sends a code itself where that is set; with a live code it waits for its entry or logs in with the set one, and lists devices exactly if the login was granted and saved |
| `PairingProvider.RestoreAsksForTheAddress` | internal/fivegencare/provider.go:183-196 | It sends codes to the configured address, or the stored one, and logs in from it with the set code |
| `PairingProvider.PairedRestoreSucceedsIff` | internal/fivegencare/provider.go:217-272 | A paired account gets its list exactly if the server lists a device that can be used |
| `PairingProvider.RestoreNeeds` | internal/fivegencare/provider.go:198-208 | What a restore needs before it can do anything |
| `PairingProvider.RequestSucceedsIff` | internal/fivegencare/provider.go:113-137 | A request succeeds exactly with an address, a state that loads and saves, an identifier of this device and a code that was sent; it says what is missing first, asks only when nothing else is, and stores only a success |
| `PairingProvider.SubmitSaysWhy` | internal/fivegencare/provider.go:142-163 | A submitted code is answered with the first thing that stood in its way, and accepted exactly when nothing did |
| `PairingProvider.RequestedForTheAddress` | internal/fivegencare/provider.go:113-137 | A requested code goes to the address given, which is stored with it |
| `PairingProvider.SubmittedForTheAddress` | internal/fivegencare/provider.go:142-163 | A submitted code is tried from the configured address, or the stored one |
| `PairingProvider.TrimsTheEnds` | internal/fivegencare/provider.go:114-144 | Trimming takes off exactly the space at both ends |
| `PairingProvider.UuidStays` | internal/fivegencare/provider.go:121-125 | The identifier of this device, once stored, never changes and is never missed |
| `PairingProvider.UuidIsNeeded` | internal/fivegencare/provider.go:209-214 | Where there is none one is made, and without one nothing is done |
| `PairingProvider.PairedStaysPaired` | internal/fivegencare/provider.go:113-231 | In every run in which no session is rejected a paired account stays paired; without a code submitted its session stays, devices are listed with it and no login is tried, whatever codes are requested; restores alone change nothing stored and send no code |
| `PairingProvider.RejectedSessionIsGone` | internal/fivegencare/provider.go:221-335 | A rejected session is answered with what pairing needs, never the rejection itself; it is off the disk exactly when that could be saved and a code that had to be sent was, and otherwise all that is stored stays; where it is gone the next restore lists devices only with a session it has just logged in for |
| `PairingProvider.RestoreGivesTheDevices` | internal/fivegencare/provider.go:240-272 | A restore that succeeds gives the compatible devices and nothing else, sorted by identifier, and keeps them |
| `PairingProvider.CamerasAreTheDevices` | internal/fivegencare/provider.go:240-264 | The cameras are the devices that lack nothing, one for one, each with its own fields under their own names, the hosts of the account and the fixed numbers |
| `PairingProvider.CamerasAreCompatible` | internal/fivegencare/provider.go:244-264 | A camera is listed exactly when a compatible device is |
| `PairingProvider.FailedRefreshGivesTheLastGoodList` | internal/fivegencare/provider.go:281-290 | After any run a refresh that fails gives the list of the last restore that succeeded, sorted, with its error |
| `PairingProvider.LastGoodIsTheLast` | internal/fivegencare/provider.go:271-271 | The list kept is that of the last restore that succeeded |
| `PairingProvider.Remaining` | internal/fivegencare/provider.go:167-181 | A challenge is worth trying exactly while it is undated or younger than its lifetime |
| `PairingProvider.Provider.RequestCode` | internal/fivegencare/provider.go:113-137 | The operation with all its failures |
| `PairingProvider.Provider.SubmitCode` | internal/fivegencare/provider.go:142-163 | The operation with all its failures |
| `PairingProvider.Provider.PairState` | internal/fivegencare/provider.go:292-335 | What pairing makes of the loaded state and the file, whatever the answers |
| `PairingProvider.Provider.Restore` | internal/fivegencare/provider.go:198-272 | The operation with all its failures |
| `PairingProvider.Provider.Refresh` | internal/fivegencare/provider.go:281-290 | The operation with its fallback |

## Left out

- Sockets, TLS, deadlines, keepalives and goroutine scheduling: reads, writes, errors, cancellations and clock ticks are events and parameters instead; liveness under a scheduler is not stated.
- The system's refusal of an address in use: the model lets every bind succeed or fail at any time, so the absence of clashes does not rest on it.
- The random source: a finite sequence of bytes; that drawing ends is stated only for the bytes there are.
- The random source at creation: an encoder is always given one, so the error for a missing source is not part of the model.
- Unicode tables, white space and lower-casing beyond one character: a table of characters is a parameter, and a lowered character is one character.
- Byte text: text fields are strings of one character per byte; UTF-8 is not modelled.
- Relay to client while the session is interleaved: `CopyToClient` covers that direction as a loop of its own, the machine of `Session` only the other one.
- The idle timeout: one of the ways a read can end, without its length.
- The slot counter is modelled as steps and not as a field of the bridge object, since its point is the interleaving; `conns` and `closing` are left out with the sockets they serve.
- A refusal that arrives with the context already dead is not recorded; the model does the same, so the cooldown promises nothing about it.
- The retry loop: its whole dial counts as one moment of the clock where a refusal is recorded.
- PortsStayDistinct: asks that the records of the first setup name different ports, since recorded addresses are kept as they are.
- StreamNamesAreDistinct: among the names of the registry only; the alias `vm65` and the `-mjpeg` companions are made elsewhere and not compared.
- NothingClashes: asks that no reload begins before Run has started its cameras, which `ReloadIsSafeIff` proves to be the exact condition; at most one reload runs at a time, as the one signal loop that calls it ensures.
- SessionIsTransparent: asks for the equality at the end only of a client stream in which nothing follows its end.
- stopAll: that a stopping runtime cancels its restart loops is modelled, its wait for them is not; the last publish of Run may begin as soon as it is stopping.
- HealthPublishing: of the health state only the two bridge numbers; a runtime without a health state publishes nothing, and the number of serving bridges cannot be below zero (`CountersAreTrue`), so that it is cut there makes no difference.
- Backoff in 64 bits: waits are unbounded integers, so doubling a wait of more than a century is not modelled.
- Reload order: cameras are stopped and started in any order; the joined error text is not modelled, only which keys failed.
- MQTT publishes always succeed and operations do not overlap; a publish that fails or a handler that runs between two others is not modelled.
- MQTT payloads are records of the fields that vary; the JSON text is not modelled, nor the result of parsing a URL.
- RemoveClears: Remove clears nothing while disconnected, and never the availability and the snapshot URL; the model states that instead of more.
- Objects of supervisors, cache entries and workers have numbers that stand for their pointers, in sequences that never forget one.
- SnapshotCache: the HTTP handler, its token and its guard are left out; the age reported with a frame is not modelled, only the age at which it was chosen.
- OneFetchPerStream: of a stream that is never dropped while a fetch for it runs, which `DropIsHarmlessIff` proves to be the exact condition.
- TemperatureSupervisor: a check and the report it allows are two steps, so a late report is possible, and stated.
- The clock of pairing may say anything at any time, also go back; the theorems hold of every such clock.
- The store of the pairing state writes the whole file or nothing; two processes on one file are not modelled.
- sort.Slice on cameras with equal identifiers may give any order; the model sorts stably.
- Account protocol, device protocol, identity derivation, tokens, the web interface, configuration, the rest of the health state, translations and the commands: exchanges and tables that one branch settles.
