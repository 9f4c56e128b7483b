# HeadsetHID engine of g733daemon, in Dafny

This project models the engine that `g733daemon` uses to talk to a Logitech
G733 wireless headset over HID++ long reports (report id 0x11, receiver
index 0xff), and proves properties of that model. The engine keeps a queue
of requests. A slow timer queues a battery query every five seconds. A fast
timer pops one request every 250 ms. A command tag (version, voltage, or a
lighting setting) writes its fixed 20-byte command frame and then reads back
at most 7 bytes. A Noop, DeviceName or Features tag is popped with neither
a write nor a read. An empty queue only reads. Each read is decoded
into one of these reports: timeout, button report, battery report, sleep,
wake, benign echo, lighting confirmation, or unhandled. The decoded report
updates the headset state (online, charging, lighting, voltage, state of
charge, button mask, timeout counter) and emits change signals. The state
of charge comes from one of two calibration curves.

Modules, one file each:

- `protocol.dfy` (`Protocol`): the command frames and the decoder `Classify`.
- `curve.dfy` (`Curve`): calibration curves and the first-match lookup
  `SocLookup`, plus the lookup as written in the source (see Findings).
- `engine.dfy` (`Engine`): the engine state as a datatype and one pure
  function per operation, giving the state after it.
- `headset.dfy` (`Headset`): class `HeadsetHid` with the source's fields,
  updated in place. Each state-changing method except `OnButtons` is proved
  to produce exactly the state that the matching `Engine` function computes
  (`Snapshot() == Engine.F(old(Snapshot()), …)`). `OnButtons` states its new
  state directly. `VoltageToSoC` changes no state and is proved equal to
  `Curve.SocLookup` on the selected curve.
- `properties.dfy` (`Properties`): lemmas about the `Engine` functions. They
  cover the scheduler, the lighting program, the timeout heuristic, and the
  effect of each report.

The transport becomes inputs:

- `found`: whether enumerating and opening the headset succeeds.
- `writeOk`: whether the write succeeds.
- `n` and `w`: the count the read returns and the zero-filled 7-byte buffer.
- `resendOk`: whether the lighting re-send issued from inside
  `readFromDevice` succeeds.

The engine's effects are recorded in two append-only logs. `events` holds
every signal emitted, in order. `traffic` holds every write (with its frame)
and every read handed to the transport, in order.

In these places the model follows the code, which one might not expect:

- A negative read count (a transport error) does not close the session. It
  takes the non-timeout path: the counter is reset, the headset may be
  revived, and the read is then dropped as unhandled (headsethid.cpp:412-428).
- Apart from a wake report, a non-empty read brings an offline headset back
  online only when the counter has reached 20 (headsethid.cpp:423).
- Neither `open()` nor `close()` resets the counter. After a reconnect that
  follows a long outage, the first empty read takes the headset offline
  again at once (headsethid.cpp:79-82, 414-418).
- Both the wake report and the lighting confirmation re-send only the strip
  frame (`setLighting`), never the logo frame (headsethid.cpp:499, 534).
- `m_soc` has no initialiser. The constructor takes its first value as a
  parameter.

## Model

| member | source | states |
|---|---|---|
| Protocol.Padded | headsethid.cpp:273 | a command buffer is 20 bytes: the initialiser's bytes, then zeros |
| Protocol.QueryFrameLayout | headsethid.cpp:273-293 | readVoltage's frame is 11 ff 08 0a and readVersion's is 11 ff 11 ff 00 11 00 00 af, each zero-padded to 20 bytes |
| Protocol.LightingRequest | headsethid.cpp:355-356 | a lighting frame is 20 bytes: 11 ff 04 3c, then the zone byte. An on frame continues with 02 00 b6 ff 0f a0 00 64 00 00 00. An off frame is all zeros after byte 4. Bytes 16-19 are always zero |
| Protocol.StripAndLogoFramesDifferOnlyInZone | headsethid.cpp:377-378 | strip and logo frames for the same setting agree everywhere except byte 4 (01 for the strip, 00 for the logo) |
| Protocol.Classify | headsethid.cpp:430-540 | a read shorter than 4 bytes, or one without the 11 ff header, is unhandled. For a framed read, one iff per report: button iff n >= 5 and bytes 2-3 are 05 00. With n >= 7: battery iff 08 0a; sleep iff bytes 2-6 are 08 00 00 00 00; wake iff 08 00 .. .. 01; echo iff ff 08 0a 05 00; lighting iff 04 3c .. .. 00. A button report carries byte 4. A battery report's voltage is byte4*256+byte5, and charging holds iff byte 6 is 03. A lighting report carries bytes 4 and 5 |
| Protocol.ClassifyReadsOnlyReceivedBytes | headsethid.cpp:409-432 | the decoder only looks at bytes the read delivered: two buffers that agree on the first n bytes decode alike |
| Protocol.LightingEchoIsConfirmation | headsethid.cpp:513-531 | the first 7 bytes of a lighting frame decode as a lighting confirmation, whose "some light is on" equals the setting sent |
| Curve.SocLookup | headsethid.cpp:200-208 | an empty curve gives 0; a non-empty curve always gives one of its own percentages |
| Curve.SocLookupFirstMatch | headsethid.cpp:203-207 | the result is the percentage of the first point whose threshold is at most the voltage |
| Curve.SocLookupFallsBackToLast | headsethid.cpp:208 | when the voltage is below every threshold, the result is the last point's percentage |
| Curve.SocLookupMonotone | headsethid.cpp:203-208 | for a curve whose percentages never rise, the lookup never falls as the voltage rises |
| Curve.SocLookupExample | headsethid.cpp:203-208 | on (240,100),(200,50),(0,0): 250 gives 100, 210 gives 50, 0 gives 0, and -5 gives 0 |
| Curve.VoltageToSoCAsWritten | headsethid.cpp:194-209 | as written: the lookup reads the selected curve, and a charging lookup leaves the charging curve in the discharging slot |
| Curve.ChargingLookupReplacesDischargingCurve | headsethid.cpp:196-198 | after one charging lookup, every later discharging lookup uses the charging curve |
| Curve.AliasedLookupCounterexample | headsethid.cpp:196-198 | with a discharging curve reading 10 and a charging curve reading 90, a discharging lookup after a charging one gives 90 instead of 10 |
| Engine.Initial | headsethid.cpp:15-25 | at construction the engine is closed and offline, with an empty queue, no signals and no traffic |
| Engine.CommandFrame | headsethid.cpp:162-187 | every tag that sends a command has a 20-byte frame starting 11 ff |
| Engine.PollVoltage | headsethid.cpp:28-30 | the poll tick appends one Voltage tag and changes nothing else |
| Engine.LightingProgram | headsethid.cpp:128-149 | the program is 10 tags: strip command, four Noop, logo command, four Noop |
| Engine.EnableLighting | headsethid.cpp:126-150 | appends exactly the 10-tag program, keeps the existing entries, and changes nothing else |
| Engine.Open | headsethid.cpp:60-85 | success means found. On success the handle is open, the headset is online, onlineChanged(true) is signalled, a Version tag is queued, and nothing else changes. On failure nothing changes |
| Engine.Close | headsethid.cpp:87-99 | afterwards there is no handle and the headset is offline. onlineChanged(false) is signalled iff a handle was held. The queue, the lighting, the counter and the traffic are unchanged, and without a handle nothing changes |
| Engine.ReadyForRequest | headsethid.cpp:250-260 | ready iff a handle exists or opening succeeds. With a handle nothing changes. A reopen signals online and queues Version. A failed reopen leaves the headset offline and signals offline only if it was online |
| Engine.Transmit | headsethid.cpp:275-282 | the frame is traced. A successful write changes nothing else. A failed write closes the session: no handle, offline under the invariant, and onlineChanged(false) iff a handle was held. The queue, the counter and the lighting are untouched |
| Engine.Send | headsethid.cpp:287-305 | succeeds iff a session exists or opens and the write succeeds. The frame is traced exactly when a session exists or opens. Success leaves the handle open. Failure leaves no handle and, under the invariant, an offline headset. The signals are those of readyForRequest, plus onlineChanged(false) when a write was attempted and failed |
| Engine.SetLighting | headsethid.cpp:347-369 | the desired lighting becomes `on` iff the session is ready and the write succeeds; otherwise it is unchanged. The strip frame is traced exactly when a session exists or opens. A successful write adds lightingChanged(on) after the signals of the send; a failed one is the send alone |
| Engine.Command | headsethid.cpp:162-191 | a tag that sends no command leaves the state as it is. The others leave the queue as it was, apart from a Version tag queued by a reopen |
| Engine.ButtonEdgesBelow | headsethid.cpp:434-443 | the button signals carry only indices below k, in strictly increasing bit order |
| Engine.OnBattery | headsethid.cpp:451-475 | voltage, charging and the SoC (wrapped to 16 bits) are stored regardless, the SoC from the corrected lookup (see Findings); the other fields are untouched |
| Engine.BatterySignals | headsethid.cpp:455-472 | a battery report emits at most three signals |
| Engine.Received | headsethid.cpp:423-428 | a non-empty read resets the counter and leaves the queue alone |
| Engine.Dispatch | headsethid.cpp:430-540 | handling a report never touches the queue or the counter, and only appends to the logs |
| Engine.ReadFromDevice | headsethid.cpp:404-544 | without a handle nothing happens. Otherwise exactly one read is traced first, and every later transfer of the call is a write (a lighting re-send). The queue is unchanged and an online headset always holds a handle |
| Engine.ProcessRequest | headsethid.cpp:152-192 | a tick only appends to the logs, and keeps the invariant that an online headset holds a handle |
| Properties.ProcessRequestPopsHead | headsethid.cpp:161 | on a non-empty queue a tick removes exactly the head and keeps the rest in order; only a reopen appends Version |
| Properties.EmptyQueueOnlyReads | headsethid.cpp:154-159 | on an empty queue a tick is just a read: the queue stays empty, and without a handle nothing happens |
| Properties.NonActingTagIsSilent | headsethid.cpp:188-190 | Noop, DeviceName and Features are popped without a write or a read, and nothing else changes |
| Properties.CommandThenRead | headsethid.cpp:164-187 | with an open session and a successful write, a command tick writes the tag's frame and then reads |
| Properties.CommandOnOpenSession | headsethid.cpp:162-187 | with an open session and a successful write, a command traces only its frame and keeps the session. Only LightsOn/LightsOff change the desired lighting |
| Properties.FailedCommandCloses | headsethid.cpp:275-282 | on an open session a rejected write traces the frame, drops the handle, leaves the headset offline and signals onlineChanged(false) once; the queue and the lighting stay |
| Properties.FailedWriteSkipsRead | headsethid.cpp:152-192 | a command tick whose write is rejected pops the head, traces only the frame, closes the session with one offline signal, and skips the read (readFromDevice returns without a handle, line 406-407) |
| Properties.SilentReadOnOpenSession | headsethid.cpp:411-414 | an empty read on an open session is traced, counted, and keeps the session and the queue |
| Properties.QuietCommandTick | headsethid.cpp:164-187 | a command tick against a silent headset writes the frame, then reads, and pops the head |
| Properties.QuietTickIsSchedulerTick | headsethid.cpp:152-192 | a quiet tick pops a non-command head and nothing else; a command head writes its frame and reads |
| Properties.IterateCompose | headsethid.cpp:34-36 | a + b timer ticks are a ticks followed by b ticks |
| Properties.NoopTicks | headsethid.cpp:188-190 | ticks over no-op heads only shorten the queue |
| Properties.CommandThenFourNoops | headsethid.cpp:128-134 | a command followed by four no-ops drains in five ticks, with one frame and one read |
| Properties.TwoCommandBlocks | headsethid.cpp:126-150 | the two blocks of the lighting program drain in ten ticks, tracing two frames, each followed by a read |
| Properties.DrainLightingProgram | headsethid.cpp:126-150 | from an idle open session, ten ticks empty the queue. They write the strip frame once and the logo frame once, each followed by a read, and leave the lighting as requested |
| Properties.QuietEmptyRead | headsethid.cpp:411-421 | below the threshold an empty read only counts itself and is traced |
| Properties.SilentReadsBelowThreshold | headsethid.cpp:411-421 | below the threshold, k empty reads add k to the counter and trace k reads; nothing is signalled |
| Properties.OfflineAfterTwentySilentReads | headsethid.cpp:414-420 | an online headset with a fresh counter is still online after 19 empty reads. The 20th takes it offline with exactly one signal |
| Properties.EmptyReadAtThresholdGoesOffline | headsethid.cpp:411-421 | for any counter, an empty read that brings an online headset's counter to 20 or more takes it offline with exactly one signal, and traces the read |
| Properties.StaleCounterAfterReopen | headsethid.cpp:79-98 | close() and open() keep the counter, so after a reconnect that follows an outage the first empty read signals offline right after the online signal of the reopen |
| Properties.SilentReadWhileOffline | headsethid.cpp:411-421 | an empty read while offline counts and signals nothing |
| Properties.ReceivedReadResetsCounter | headsethid.cpp:423-428 | any non-zero read count, negative ones included, resets the counter |
| Properties.ShortReadIsDropped | headsethid.cpp:423-430 | a read of 1-3 bytes or a negative count resets the counter and may revive the headset, then is dropped |
| Properties.ReadAfterOutageRevives | headsethid.cpp:423-427 | after an outage of 20 or more empty reads, the next non-empty read signals online first. Unless it is a sleep or lighting report, the headset stays online |
| Properties.NoRevivalBelowThreshold | headsethid.cpp:423 | short of 20 empty reads, only a wake report brings an offline headset back |
| Properties.ButtonEdgesBelowExact | headsethid.cpp:434-443 | for bits below k there is a signal (i, p) iff bit i differs and p is the new bit |
| Properties.ButtonEdgesExact | headsethid.cpp:432-446 | there is a buttonPressed(i, p) signal iff bit i of the old and new masks differs and p is the new bit; every index is below 8 |
| Properties.SameMaskNoEdges | headsethid.cpp:434-443 | an unchanged mask emits no button signals |
| Properties.ButtonEdgesExample | headsethid.cpp:434-443 | going from mask 01 to 03 emits exactly buttonPressed(1, true) |
| Properties.BatterySignalsOnlyChanges | headsethid.cpp:451-475 | all three fields are stored. Each of the voltage, charging and SoC signals is emitted iff its value changed, and at most three signals are emitted |
| Properties.BatterySignalsExact | headsethid.cpp:455-472 | each signal is in the battery signals iff its value changed |
| Properties.SleepGoesOffline | headsethid.cpp:478-488 | a sleep report makes the headset offline and signals only if it was online; the lighting and the traffic are untouched |
| Properties.WakeRestoresLighting | headsethid.cpp:491-503 | a wake report while online does nothing. While offline it brings the headset online and re-sends the desired strip lighting |
| Properties.WakeAfterOutageSkipsLighting | headsethid.cpp:423-503 | a wake report that ends an outage of 20 or more empty reads is absorbed by the revival, so the lighting is not re-sent |
| Properties.ConfirmationReconciles | headsethid.cpp:513-538 | a lighting confirmation re-sends the strip frame iff "some light is on" disagrees with the desired lighting; the desired value never changes |
| Properties.OwnEchoNeedsNoResend | headsethid.cpp:513-538 | an echo of the frame that set the current lighting causes no write and no change |
| Headset.HeadsetHid.constructor | headsethid.cpp:15-37 | the object starts in the initial state with the given curves |
| Headset.HeadsetHid.PollVoltage | headsethid.cpp:28-30 | the poll tick, in place, keeps the invariant |
| Headset.HeadsetHid.EnableLighting | headsethid.cpp:126-150 | appends the lighting program in place and keeps the invariant |
| Headset.HeadsetHid.Open | headsethid.cpp:60-85 | open() in place, as Engine.Open |
| Headset.HeadsetHid.Close | headsethid.cpp:87-99 | close() in place, as Engine.Close |
| Headset.HeadsetHid.ReadyForRequest | headsethid.cpp:250-260 | readyForRequest() in place, as Engine.ReadyForRequest |
| Headset.HeadsetHid.Transmit | headsethid.cpp:275-282 | one write and its failure path in place, as Engine.Transmit |
| Headset.HeadsetHid.ReadVersion | headsethid.cpp:287-305 | readVersion() in place: Engine.Send of the version frame |
| Headset.HeadsetHid.ReadVoltage | headsethid.cpp:262-285 | readVoltage() in place: Engine.Send of the voltage frame |
| Headset.HeadsetHid.SetLighting | headsethid.cpp:347-369 | setLighting() in place, as Engine.SetLighting |
| Headset.HeadsetHid.SetLogoLighting | headsethid.cpp:371-389 | setLogoLighting() in place: Engine.Send of the logo frame |
| Headset.HeadsetHid.VoltageToSoC | headsethid.cpp:194-209 | the scan returns the first-match/fallback lookup on the curve selected by the charging flag (corrected, see Findings) |
| Headset.HeadsetHid.OnButtons | headsethid.cpp:432-446 | the 8-bit loop emits exactly the button signals of the mask change and stores the new mask |
| Headset.HeadsetHid.OnBattery | headsethid.cpp:451-475 | the battery branch in place, as Engine.OnBattery |
| Headset.HeadsetHid.ReadFromDevice | headsethid.cpp:404-428 | the read, the timeout counter and the revival in place, as Engine.ReadFromDevice |
| Headset.HeadsetHid.Dispatch | headsethid.cpp:430-543 | the report branches in place, as Engine.Dispatch |
| Headset.HeadsetHid.ProcessRequest | headsethid.cpp:152-192 | one fast-timer tick in place, as Engine.ProcessRequest; keeps the invariant |
| Headset.HeadsetHid.Command | headsethid.cpp:162-187 | the command switch in place, as Engine.Command |

## Left out

- hidapi (`hid_enumerate`, `hid_open_path`, `hid_write`, `hid_read_timeout`,
  `hid_close`, `hid_error`) and `findDevice`: foreign device I/O. They are
  replaced by the inputs `found`, `writeOk`, `resendOk`, `n` and `w`.
- The `QTimer` wiring (headsethid.cpp:28-36) is timer plumbing. The two
  ticks are the methods `PollVoltage` and `ProcessRequest`.
- `loadMap`/`loadMaps` (headsethid.cpp:211-248) do file I/O and parse
  decimals. The curves are given as integer pairs instead. Percentages are
  therefore integers, so the double-to-int truncation at
  headsethid.cpp:470 is the identity here.
- Curve.SocLookup: does not model a fractional percentage, because the
  curves are taken as integer pairs.
- `readFeatures` and `readDeviceName` (headsethid.cpp:307-345): nothing ever
  queues or calls them. Their tags `DeviceName` and `Features` are modelled
  as popped without effect.
- The getters `voltage`, `soc`, `online`, `charging` and `lighting`
  (headsethid.cpp:101-124) only return fields.
- `printPacket` and the `printf`/`qDebug` logging are diagnostics only.
- headsetdbusservice.cpp and main.cpp are not part of this model. They are
  the D-Bus adaptor and process start-up.
- Engine.OnBattery: the state of charge comes from the corrected lookup,
  which selects the curve without changing either one. In the source, a
  charging battery report copies the charging curve over the discharging
  one (headsethid.cpp:196-198). Every later discharging report then reads
  the charging curve. The engine does not reproduce this; see Findings.
- Engine.ReadFromDevice: `m_timeout` is a C `int` whose increment could
  overflow after 2^31 consecutive empty reads. The counter is an unbounded
  `nat` here.
- Engine.Transmit: a short write (fewer than 20 bytes accepted) is not
  distinguished from a full one, because the source only checks for a
  negative result.
- Headset.HeadsetHid.OnBattery: it collects the signals and appends them
  after storing the fields, while the source emits each one before storing
  the next field. Nothing can observe the difference inside one call.

## Findings

| source | as written | input that shows it | evidently intended | confidence | as-written member | corrected member |
|---|---|---|---|---|---|---|
| headsethid.cpp:196-198 | `map` is a reference bound to `m_curve_discharging`, so `map = m_curve_charging` copies the charging curve over the discharging one | discharging curve [(0,10)], charging curve [(0,90)]: a charging lookup at 3700, then a discharging lookup at 3700, gives 90 instead of 10 | select the curve for the lookup without changing either curve | high (not executed) | Curve.AliasedLookupCounterexample | Headset.HeadsetHid.VoltageToSoC |
