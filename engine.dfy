/**
 * The headset engine as values: the state HeadsetHID keeps, and one pure
 * function per operation giving the state after it. The class in module
 * Headset implements each of these step by step; the lemmas in module
 * Properties are stated over them.
 *
 * The transport is abstracted into inputs: whether opening the device
 * succeeds, whether a write succeeds, and what a read returns (a byte count
 * and the 7-byte window). What the engine does to the transport is kept as
 * an append-only trace of writes and reads, and every signal it emits is
 * appended to an event log.
 */
module Engine {
  import opened Protocol
  import opened Curve

  /** The tags of the request queue. DeviceName and Features are reserved: nothing dispatches them. */
  datatype RequestType = Noop | DeviceName | Features | LightsOn | LogoOn | LightsOff | LogoOff | Version | Voltage

  /** The signals of HeadsetHID. */
  datatype Event =
    | OnlineChanged(online: bool)
    | ChargingChanged(charging: bool)
    | VoltageChanged(voltage: int)
    | SocChanged(soc: int)
    | LightingChanged(lighting: bool)
    | ButtonPressed(index: nat, pressed: bool)

  /** One call into the transport: a frame handed to the write, or a read. */
  datatype Transfer = Write(frame: seq<bv8>) | Read

  /** The fields of HeadsetHID; `handleOpen` stands for a non-null device handle. */
  datatype State = State(
    handleOpen: bool,
    online: bool,
    charging: bool,
    lighting: bool,
    voltage: UInt16,
    soc: UInt16,
    buttons: bv8,
    timeout: nat,
    requests: seq<RequestType>,
    events: seq<Event>,
    traffic: seq<Transfer>)

  /** A command's success flag together with the state after it. */
  datatype Step = Step(ok: bool, next: State)

  /** Consecutive empty reads after which an online headset is declared offline. */
  const OfflineThreshold: nat := 20

  /** The engine only ever reports the headset online while it holds a handle. */
  predicate Valid(s: State) {
    s.online ==> s.handleOpen
  }

  /** Signals and transport calls are only ever appended. */
  predicate Appends(s: State, r: State) {
    s.events <= r.events && s.traffic <= r.traffic
  }

  /** The state right after construction; the source leaves m_soc uninitialised. */
  function Initial(soc: UInt16): (s: State)
    ensures Valid(s) && !s.handleOpen && s.requests == [] && s.events == [] && s.traffic == []
  {
    State(false, false, false, false, 0, soc, 0, 0, [], [], [])
  }

  /** Tags that processRequest turns into a device command. */
  predicate Acts(t: RequestType) {
    t.Version? || t.Voltage? || t.LightsOn? || t.LogoOn? || t.LightsOff? || t.LogoOff?
  }

  /** The frame written for an acting tag. */
  function CommandFrame(t: RequestType): (f: seq<bv8>)
    requires Acts(t)
    ensures |f| == LongReportLength && f[0] == LongReport && f[1] == Receiver
  {
    match t
    case Version => VersionRequest
    case Voltage => VoltageRequest
    case LightsOn => LightingRequest(Strip, true)
    case LightsOff => LightingRequest(Strip, false)
    case LogoOn => LightingRequest(Logo, true)
    case LogoOff => LightingRequest(Logo, false)
  }

  /** The slow timer's tick: queue a battery voltage query. */
  function PollVoltage(s: State): (r: State)
    ensures r.requests == s.requests + [Voltage]
    ensures r.(requests := s.requests) == s
  {
    s.(requests := s.requests + [Voltage])
  }

  /** The micro-program enableLighting queues: strip command, four no-ops, logo command, four no-ops. */
  function LightingProgram(on: bool): (p: seq<RequestType>)
    ensures |p| == 10
    ensures p[0] == (if on then LightsOn else LightsOff) && p[5] == (if on then LogoOn else LogoOff)
    ensures forall i :: 0 <= i < |p| && i != 0 && i != 5 ==> p[i] == Noop
  {
    var strip, logo := if on then LightsOn else LightsOff, if on then LogoOn else LogoOff;
    [strip, Noop, Noop, Noop, Noop, logo, Noop, Noop, Noop, Noop]
  }

  function EnableLighting(s: State, on: bool): (r: State)
    ensures |r.requests| == |s.requests| + 10 && r.requests[..|s.requests|] == s.requests
    ensures r.requests[|s.requests|..] == LightingProgram(on)
    ensures r.(requests := s.requests) == s
  {
    s.(requests := s.requests + LightingProgram(on))
  }

  /** open(): `found` says whether the device was enumerated and its path opened. */
  function Open(s: State, found: bool): (r: Step)
    ensures Appends(s, r.next) && (Valid(s) ==> Valid(r.next))
    ensures r.ok == found
    ensures r.ok ==> r.next.handleOpen && r.next.online && r.next.requests == s.requests + [Version]
    ensures r.ok ==> r.next == s.(handleOpen := true, online := true,
                                  events := s.events + [OnlineChanged(true)],
                                  requests := s.requests + [Version])
    ensures !r.ok ==> r.next == s
  {
    if !found then Step(false, s)
    else Step(true, s.(handleOpen := true, online := true,
                       events := s.events + [OnlineChanged(true)],
                       requests := s.requests + [Version]))
  }

  /** close(): a no-op without a handle, otherwise drops it and reports offline. */
  function Close(s: State): (r: State)
    ensures Appends(s, r) && !r.handleOpen && r.requests == s.requests
    ensures Valid(s) ==> Valid(r) && !r.online
    ensures r.lighting == s.lighting && r.timeout == s.timeout && r.traffic == s.traffic
    ensures r.events == s.events + (if s.handleOpen then [OnlineChanged(false)] else [])
    ensures !s.handleOpen ==> r == s
  {
    if !s.handleOpen then s
    else s.(handleOpen := false, online := false, events := s.events + [OnlineChanged(false)])
  }

  /** readyForRequest(): reopen lazily; on failure force offline, signalling only a change. */
  function ReadyForRequest(s: State, found: bool): (r: Step)
    ensures Appends(s, r.next) && (Valid(s) ==> Valid(r.next))
    ensures r.ok <==> s.handleOpen || found
    ensures r.ok ==> r.next.handleOpen
    ensures !r.ok ==> !r.next.handleOpen && !r.next.online
    ensures r.next.traffic == s.traffic && r.next.timeout == s.timeout && r.next.lighting == s.lighting
    ensures r.next.requests == s.requests + (if !s.handleOpen && found then [Version] else [])
    ensures s.handleOpen ==> r.next == s
    ensures !r.ok ==> r.next.events == s.events + (if s.online then [OnlineChanged(false)] else [])
    ensures !s.handleOpen && found ==> r.next.events == s.events + [OnlineChanged(true)]
  {
    if s.handleOpen then Step(true, s)
    else
      var attempt := Open(s, found);
      if attempt.ok then attempt
      else Step(false, s.(online := false,
                          events := s.events + (if s.online then [OnlineChanged(false)] else [])))
  }

  /** hid_write of a frame; a failed write closes the session. */
  function Transmit(s: State, frame: seq<bv8>, writeOk: bool): (r: Step)
    ensures Appends(s, r.next) && (Valid(s) ==> Valid(r.next))
    ensures r.ok == writeOk
    ensures r.next.traffic == s.traffic + [Write(frame)]
    ensures r.next.requests == s.requests && r.next.timeout == s.timeout && r.next.lighting == s.lighting
    ensures writeOk ==> r.next == s.(traffic := s.traffic + [Write(frame)])
    ensures !writeOk ==> !r.next.handleOpen && (Valid(s) ==> !r.next.online)
    ensures !writeOk ==> r.next.events == s.events + (if s.handleOpen then [OnlineChanged(false)] else [])
  {
    var written := s.(traffic := s.traffic + [Write(frame)]);
    if writeOk then Step(true, written) else Step(false, Close(written))
  }

  /** The common shape of readVersion, readVoltage and setLogoLighting. */
  function Send(s: State, frame: seq<bv8>, found: bool, writeOk: bool): (r: Step)
    ensures Appends(s, r.next) && (Valid(s) ==> Valid(r.next))
    ensures r.ok <==> (s.handleOpen || found) && writeOk
    ensures r.next.traffic == s.traffic + (if s.handleOpen || found then [Write(frame)] else [])
    ensures r.next.requests == s.requests + (if !s.handleOpen && found then [Version] else [])
    ensures r.next.lighting == s.lighting && r.next.timeout == s.timeout
    ensures r.ok ==> r.next.handleOpen
    ensures !r.ok ==> !r.next.handleOpen && (Valid(s) ==> !r.next.online)
    ensures r.next.events == ReadyForRequest(s, found).next.events
                             + (if (s.handleOpen || found) && !writeOk then [OnlineChanged(false)] else [])
  {
    var ready := ReadyForRequest(s, found);
    if !ready.ok then ready else Transmit(ready.next, frame, writeOk)
  }

  /** setLighting(): on a successful write the desired lighting becomes `on` and is signalled. */
  function SetLighting(s: State, on: bool, found: bool, writeOk: bool): (r: Step)
    ensures Appends(s, r.next) && (Valid(s) ==> Valid(r.next))
    ensures r.ok <==> (s.handleOpen || found) && writeOk
    ensures r.next.lighting == (if r.ok then on else s.lighting) && r.next.timeout == s.timeout
    ensures r.ok ==> r.next.handleOpen
    ensures r.next.traffic == s.traffic + (if s.handleOpen || found then [Write(LightingRequest(Strip, on))] else [])
    ensures r.next.requests == s.requests + (if !s.handleOpen && found then [Version] else [])
    ensures var sent := Send(s, LightingRequest(Strip, on), found, writeOk).next;
            if r.ok then r.next.events == sent.events + [LightingChanged(on)] else r.next == sent
  {
    var sent := Send(s, LightingRequest(Strip, on), found, writeOk);
    if !sent.ok then sent
    else Step(true, sent.next.(lighting := on, events := sent.next.events + [LightingChanged(on)]))
  }

  /** The write half of one scheduler step for tag `t`. */
  function Command(s: State, t: RequestType, found: bool, writeOk: bool): (r: State)
    ensures Appends(s, r) && (Valid(s) ==> Valid(r))
    ensures r.requests == s.requests + (if Acts(t) && !s.handleOpen && found then [Version] else [])
    ensures !Acts(t) ==> r == s
  {
    match t
    case LightsOn => SetLighting(s, true, found, writeOk).next
    case LightsOff => SetLighting(s, false, found, writeOk).next
    case Version => Send(s, CommandFrame(t), found, writeOk).next
    case Voltage => Send(s, CommandFrame(t), found, writeOk).next
    case LogoOn => Send(s, CommandFrame(t), found, writeOk).next
    case LogoOff => Send(s, CommandFrame(t), found, writeOk).next
    case Noop => s
    case DeviceName => s
    case Features => s
  }

  /** Bit `i` of a button mask. */
  predicate Bit(b: bv8, i: nat)
    requires i < 8
  {
    b & ((1 as bv8) << i) != 0
  }

  /** Button events for bits 0..k-1 in index order: one per bit that differs, carrying the new bit. */
  function ButtonEdgesBelow(was: bv8, now: bv8, k: nat): (es: seq<Event>)
    requires k <= 8
    ensures forall j :: 0 <= j < |es| ==> es[j].ButtonPressed? && es[j].index < k
    ensures forall j1, j2 :: 0 <= j1 < j2 < |es| ==> es[j1].index < es[j2].index
  {
    if k == 0 then []
    else
      var i := k - 1;
      ButtonEdgesBelow(was, now, i)
      + (if Bit(was, i) != Bit(now, i) then [ButtonPressed(i, Bit(now, i))] else [])
  }

  /** The buttonPressed signals for a change of the button mask from `was` to `now`. */
  function ButtonEdges(was: bv8, now: bv8): (es: seq<Event>) {
    ButtonEdgesBelow(was, now, 8)
  }

  /** A battery report: store voltage, regime and SoC, signalling each one that changed. */
  function OnBattery(s: State, curves: Curves, v: UInt16, charging: bool): (r: State)
    ensures r.voltage == v && r.charging == charging
    ensures r.soc == SocLookup(Select(curves, charging), v) % 0x1_0000
    ensures Appends(s, r) && (Valid(s) ==> Valid(r))
    ensures r.handleOpen == s.handleOpen && r.online == s.online && r.lighting == s.lighting
    ensures r.buttons == s.buttons && r.timeout == s.timeout && r.requests == s.requests && r.traffic == s.traffic
  {
    var soc := SocLookup(Select(curves, charging), v);
    s.(voltage := v, charging := charging, soc := soc % 0x1_0000,
       events := s.events + BatterySignals(s, v, charging, soc))
  }

  /** The signals of a battery report, in emission order: voltage, charging, SoC, each only if it changed. */
  function BatterySignals(s: State, v: UInt16, charging: bool, soc: int): (d: seq<Event>)
    ensures |d| <= 3
  {
    (if s.voltage != v then [VoltageChanged(v)] else [])
    + (if s.charging != charging then [ChargingChanged(charging)] else [])
    + (if soc != s.soc then [SocChanged(soc)] else [])
  }

  /**
   * The state after a read that returned a non-zero count, before the
   * report is looked at: the read is traced, an offline headset whose
   * counter reached the threshold is back online, and the counter is reset.
   */
  function Received(s: State): (r: State)
    ensures Appends(s, r) && r.timeout == 0 && r.requests == s.requests
    ensures s.handleOpen && Valid(s) ==> Valid(r)
  {
    var read := s.(traffic := s.traffic + [Read], timeout := 0);
    if !s.online && s.timeout >= OfflineThreshold then
      read.(online := true, events := s.events + [OnlineChanged(true)])
    else read
  }

  /**
   * Act on a classified report. Re-sending the lighting happens with the
   * handle open, so the `found` flag of that write is never consulted.
   */
  function Dispatch(s: State, curves: Curves, report: Report, resendOk: bool): (r: State)
    ensures Appends(s, r) && r.requests == s.requests && r.timeout == s.timeout
    ensures s.handleOpen && Valid(s) ==> Valid(r)
    ensures OnlyWritesFrom(r.traffic, |s.traffic|)
  {
    match report
    case ButtonReport(mask) =>
      s.(buttons := mask, events := s.events + ButtonEdges(s.buttons, mask))
    case BatteryReport(v, charging) =>
      OnBattery(s, curves, v, charging)
    case SleepReport =>
      s.(online := false, events := s.events + (if s.online then [OnlineChanged(false)] else []))
    case WakeReport =>
      if s.online then s
      else SetLighting(s.(online := true, events := s.events + [OnlineChanged(true)]), s.lighting, false, resendOk).next
    case BenignEcho => s
    case LightingReport(zone, mode) =>
      if AnyLightOn(zone, mode) != s.lighting then SetLighting(s, s.lighting, false, resendOk).next else s
    case Unhandled => s
  }

  /** Every transfer of `log` from index `k` on is a write. */
  predicate OnlyWritesFrom(log: seq<Transfer>, k: nat) {
    forall i :: k <= i < |log| ==> log[i].Write?
  }

  /** readFromDevice(): one read of at most 7 bytes and its effect. */
  function ReadFromDevice(s: State, curves: Curves, n: int, w: seq<bv8>, resendOk: bool): (r: State)
    requires |w| == ReadWindow
    ensures Appends(s, r) && r.requests == s.requests && (Valid(s) ==> Valid(r))
    ensures !s.handleOpen ==> r == s
    ensures s.handleOpen ==> |r.traffic| > |s.traffic| && r.traffic[|s.traffic|] == Read
    ensures s.handleOpen ==> OnlyWritesFrom(r.traffic, |s.traffic| + 1)
  {
    if !s.handleOpen then s
    else if n == 0 then
      var t := s.timeout + 1;
      var polled := s.(traffic := s.traffic + [Read], timeout := t);
      if s.online && t >= OfflineThreshold then
        polled.(online := false, events := s.events + [OnlineChanged(false)])
      else polled
    else
      var p := Received(s);
      var r := Dispatch(p, curves, Classify(n, w), resendOk);
      assert p.traffic <= r.traffic;
      r
  }

  /** processRequest(): pop one tag, run its command, then read; an empty queue only reads. */
  function ProcessRequest(s: State, curves: Curves, found: bool, writeOk: bool,
                          n: int, w: seq<bv8>, resendOk: bool): (r: State)
    requires |w| == ReadWindow
    ensures Appends(s, r) && (Valid(s) ==> Valid(r))
  {
    if s.requests == [] then ReadFromDevice(s, curves, n, w, resendOk)
    else
      var head := s.requests[0];
      var popped := s.(requests := s.requests[1..]);
      if Acts(head) then ReadFromDevice(Command(popped, head, found, writeOk), curves, n, w, resendOk)
      else popped
  }
}
