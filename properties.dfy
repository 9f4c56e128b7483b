/**
 * Properties of the headset engine: the request queue is a FIFO that one
 * step pops at most one tag from, the lighting micro-program drains into
 * exactly two writes, twenty silent reads take an online headset offline,
 * and each kind of report has the effect and emits the signals it should.
 */
module Properties {
  import opened Protocol
  import opened Curve
  import opened Engine

  /** A read that delivered nothing: seven zero bytes. */
  const Silence: seq<bv8> := [0, 0, 0, 0, 0, 0, 0]

  // ---------------------------------------------------------------------
  // The scheduler

  /** On a non-empty queue one step removes exactly the head; only a reopen appends a Version tag. */
  lemma ProcessRequestPopsHead(s: State, curves: Curves, found: bool, writeOk: bool,
                               n: int, w: seq<bv8>, resendOk: bool)
    requires |w| == ReadWindow && s.requests != []
    ensures ProcessRequest(s, curves, found, writeOk, n, w, resendOk).requests
            == s.requests[1..] + (if Acts(s.requests[0]) && !s.handleOpen && found then [Version] else [])
  {
  }

  /** On an empty queue a step leaves the queue empty and performs only the read. */
  lemma EmptyQueueOnlyReads(s: State, curves: Curves, found: bool, writeOk: bool,
                            n: int, w: seq<bv8>, resendOk: bool)
    requires |w| == ReadWindow && s.requests == []
    ensures var r := ProcessRequest(s, curves, found, writeOk, n, w, resendOk);
            r == ReadFromDevice(s, curves, n, w, resendOk) && r.requests == []
            && (s.handleOpen ==> r.traffic[|s.traffic|] == Read)
            && (!s.handleOpen ==> r == s)
  {
  }

  /** Noop and the reserved tags are popped without a write or a read and change nothing else. */
  lemma NonActingTagIsSilent(s: State, curves: Curves, found: bool, writeOk: bool,
                             n: int, w: seq<bv8>, resendOk: bool)
    requires |w| == ReadWindow && s.requests != [] && !Acts(s.requests[0])
    ensures ProcessRequest(s, curves, found, writeOk, n, w, resendOk) == s.(requests := s.requests[1..])
  {
  }

  /** With the session open and the write accepted, a command step writes the tag's frame and then reads. */
  lemma CommandThenRead(s: State, curves: Curves, found: bool, n: int, w: seq<bv8>, resendOk: bool)
    requires |w| == ReadWindow && s.requests != [] && Acts(s.requests[0]) && s.handleOpen
    ensures var r := ProcessRequest(s, curves, found, true, n, w, resendOk);
            |r.traffic| >= |s.traffic| + 2
            && r.traffic[|s.traffic|..|s.traffic| + 2] == [Write(CommandFrame(s.requests[0])), Read]
  {
    var head := s.requests[0];
    var popped := s.(requests := s.requests[1..]);
    CommandOnOpenSession(popped, head, found);
    var c := Command(popped, head, found, true);
    var r := ReadFromDevice(c, curves, n, w, resendOk);
    assert ProcessRequest(s, curves, found, true, n, w, resendOk) == r;
    assert c.traffic <= r.traffic && r.traffic[|c.traffic|] == Read;
  }

  /** With the session open and the write accepted, a command only writes its frame (and, for the strip, records the lighting). */
  lemma CommandOnOpenSession(s: State, t: RequestType, found: bool)
    requires s.handleOpen && Acts(t)
    ensures var r := Command(s, t, found, true);
            r.handleOpen && r.requests == s.requests && r.timeout == s.timeout
            && r.traffic == s.traffic + [Write(CommandFrame(t))]
            && r.lighting == LightingAfter(t, s.lighting)
  {
    match t
    case LightsOn => assert Command(s, t, found, true) == SetLighting(s, true, found, true).next;
    case LightsOff => assert Command(s, t, found, true) == SetLighting(s, false, found, true).next;
    case Version => assert Command(s, t, found, true) == Send(s, VersionRequest, found, true).next;
    case Voltage => assert Command(s, t, found, true) == Send(s, VoltageRequest, found, true).next;
    case LogoOn => assert Command(s, t, found, true) == Send(s, LightingRequest(Logo, true), found, true).next;
    case LogoOff => assert Command(s, t, found, true) == Send(s, LightingRequest(Logo, false), found, true).next;
  }

  /** On an open session a rejected write closes it: the frame is traced and offline is signalled once. */
  lemma FailedCommandCloses(s: State, t: RequestType, found: bool)
    requires Valid(s) && s.handleOpen && Acts(t)
    ensures var r := Command(s, t, found, false);
            !r.handleOpen && !r.online && r.requests == s.requests && r.lighting == s.lighting
            && r.traffic == s.traffic + [Write(CommandFrame(t))]
            && r.events == s.events + [OnlineChanged(false)]
  {
    match t
    case LightsOn => assert Command(s, t, found, false) == SetLighting(s, true, found, false).next;
    case LightsOff => assert Command(s, t, found, false) == SetLighting(s, false, found, false).next;
    case Version => assert Command(s, t, found, false) == Send(s, VersionRequest, found, false).next;
    case Voltage => assert Command(s, t, found, false) == Send(s, VoltageRequest, found, false).next;
    case LogoOn => assert Command(s, t, found, false) == Send(s, LightingRequest(Logo, true), found, false).next;
    case LogoOff => assert Command(s, t, found, false) == Send(s, LightingRequest(Logo, false), found, false).next;
  }

  /**
   * A command tick whose write is rejected closes the session, signals
   * offline once, and skips the read, since readFromDevice finds no handle.
   */
  lemma FailedWriteSkipsRead(s: State, curves: Curves, found: bool, n: int, w: seq<bv8>, resendOk: bool)
    requires |w| == ReadWindow && Valid(s) && s.handleOpen && s.requests != [] && Acts(s.requests[0])
    ensures var r := ProcessRequest(s, curves, found, false, n, w, resendOk);
            !r.handleOpen && !r.online && r.requests == s.requests[1..]
            && r.traffic == s.traffic + [Write(CommandFrame(s.requests[0]))]
            && r.events == s.events + [OnlineChanged(false)]
  {
    FailedCommandCloses(s.(requests := s.requests[1..]), s.requests[0], found);
  }

  /** An empty read on an open session traces the read and counts it; the session stays open. */
  lemma SilentReadOnOpenSession(s: State, curves: Curves, w: seq<bv8>, resendOk: bool)
    requires |w| == ReadWindow && s.handleOpen
    ensures var r := ReadFromDevice(s, curves, 0, w, resendOk);
            r.handleOpen && r.requests == s.requests && r.lighting == s.lighting
            && r.traffic == s.traffic + [Read] && r.timeout == s.timeout + 1
  {
  }

  /** One tick of the fast timer against a healthy headset that stays silent. */
  function QuietTick(s: State, curves: Curves): (r: State) {
    ProcessRequest(s, curves, true, true, 0, Silence, true)
  }

  /** `k` applications of `step`, starting from `s`. */
  function Iterate(step: State -> State, s: State, k: nat): (r: State)
    decreases k
  {
    if k == 0 then s else Iterate(step, step(s), k - 1)
  }

  lemma {:induction false} IterateCompose(step: State -> State, s: State, a: nat, b: nat)
    ensures Iterate(step, s, a + b) == Iterate(step, Iterate(step, s, a), b)
    decreases a
  {
    if a > 0 {
      IterateCompose(step, step(s), a - 1, b);
    }
  }

  /** `k` quiet ticks. */
  function QuietTicks(s: State, curves: Curves, k: nat): (r: State) {
    Iterate(x => QuietTick(x, curves), s, k)
  }

  /** The desired lighting after tag `t` was written successfully. */
  function LightingAfter(t: RequestType, lighting: bool): (on: bool) {
    if t.LightsOn? then true else if t.LightsOff? then false else lighting
  }

  /** A command tick of a healthy, open session: its frame then a read; the session stays open. */
  lemma QuietCommandTick(s: State, curves: Curves)
    requires s.handleOpen && s.requests != [] && Acts(s.requests[0])
    ensures var r := QuietTick(s, curves);
            r.handleOpen && r.requests == s.requests[1..]
            && r.traffic == s.traffic + [Write(CommandFrame(s.requests[0])), Read]
            && r.lighting == LightingAfter(s.requests[0], s.lighting)
  {
    var popped := s.(requests := s.requests[1..]);
    CommandOnOpenSession(popped, s.requests[0], true);
    SilentReadOnOpenSession(Command(popped, s.requests[0], true, true), curves, Silence, true);
  }

  /**
   * What a scheduler tick does on an open session: a non-acting head is
   * only popped; an acting head is popped, its frame written and a read
   * traced, and the session stays open.
   */
  ghost predicate SchedulerTick(step: State -> State) {
    && (forall x: State {:trigger step(x)} :: x.handleOpen && x.requests != [] && !Acts(x.requests[0])
          ==> step(x) == x.(requests := x.requests[1..]))
    && (forall x: State {:trigger step(x)} :: x.handleOpen && x.requests != [] && Acts(x.requests[0])
          ==> step(x).handleOpen && step(x).requests == x.requests[1..]
              && step(x).traffic == x.traffic + [Write(CommandFrame(x.requests[0])), Read]
              && step(x).lighting == LightingAfter(x.requests[0], x.lighting))
  }

  /** The quiet tick is such a scheduler tick. */
  lemma QuietTickIsSchedulerTick(curves: Curves)
    ensures SchedulerTick(x => QuietTick(x, curves))
  {
    forall x: State | x.handleOpen && x.requests != [] && !Acts(x.requests[0])
      ensures QuietTick(x, curves) == x.(requests := x.requests[1..])
    {
      NonActingTagIsSilent(x, curves, true, true, 0, Silence, true);
    }
    forall x: State | x.handleOpen && x.requests != [] && Acts(x.requests[0])
      ensures var r := QuietTick(x, curves);
              r.handleOpen && r.requests == x.requests[1..]
              && r.traffic == x.traffic + [Write(CommandFrame(x.requests[0])), Read]
              && r.lighting == LightingAfter(x.requests[0], x.lighting)
    {
      QuietCommandTick(x, curves);
    }
  }

  /** Ticks whose heads are all non-acting only shorten the queue. */
  lemma {:induction false} NoopTicks(step: State -> State, s: State, k: nat)
    requires SchedulerTick(step) && s.handleOpen
    requires k <= |s.requests|
    requires forall i :: 0 <= i < k ==> !Acts(s.requests[i])
    ensures Iterate(step, s, k) == s.(requests := s.requests[k..])
    decreases k
  {
    if k > 0 {
      var t := step(s);
      assert t == s.(requests := s.requests[1..]);
      forall i | 0 <= i < k - 1 ensures !Acts(t.requests[i]) {
        assert t.requests[i] == s.requests[i + 1];
      }
      NoopTicks(step, t, k - 1);
      assert t.requests[k - 1..] == s.requests[k..];
    }
  }

  /** A command followed by the four no-ops enableLighting pads it with. */
  function Block(c: RequestType): (b: seq<RequestType>) {
    [c] + FourNoops
  }

  const FourNoops: seq<RequestType> := [Noop, Noop, Noop, Noop]

  lemma BlockParts(c: RequestType, rest: seq<RequestType>)
    ensures Block(c) + rest != [] && (Block(c) + rest)[0] == c
    ensures (Block(c) + rest)[1..] == FourNoops + rest
  {
  }

  lemma FourNoopsParts(rest: seq<RequestType>)
    ensures 4 <= |FourNoops + rest| && (FourNoops + rest)[4..] == rest
    ensures forall i :: 0 <= i < 4 ==> !Acts((FourNoops + rest)[i])
  {
  }

  lemma LightingProgramBlocks(on: bool)
    ensures LightingProgram(on) == Block(if on then LightsOn else LightsOff) + Block(if on then LogoOn else LogoOff)
  {
  }

  /** Sequence identity kept out of TwoCommandBlocks, whose context makes it expensive. */
  lemma AppendNothing(q: seq<RequestType>)
    ensures q + [] == q
  {
  }

  /** A command tag followed by four no-ops, run on an open session: one frame, one read. */
  lemma CommandThenFourNoops(step: State -> State, s: State, c: RequestType, rest: seq<RequestType>)
    requires SchedulerTick(step) && s.handleOpen && Acts(c)
    requires s.requests == Block(c) + rest
    ensures var r := Iterate(step, s, 5);
            r.handleOpen && r.requests == rest
            && r.traffic == s.traffic + [Write(CommandFrame(c)), Read]
            && r.lighting == LightingAfter(c, s.lighting)
  {
    BlockParts(c, rest);
    FourNoopsParts(rest);
    NoopTicks(step, step(s), 4);
  }

  /** Two command-and-four-no-ops blocks in a row: two frames, each followed by a read. */
  lemma TwoCommandBlocks(step: State -> State, s: State, c1: RequestType, c2: RequestType)
    requires SchedulerTick(step) && s.handleOpen && Acts(c1) && Acts(c2)
    requires s.requests == Block(c1) + Block(c2)
    ensures var r := Iterate(step, s, 10);
            r.handleOpen && r.requests == []
            && r.traffic == s.traffic + [Write(CommandFrame(c1)), Read, Write(CommandFrame(c2)), Read]
            && r.lighting == LightingAfter(c2, LightingAfter(c1, s.lighting))
  {
    IterateCompose(step, s, 5, 5);
    CommandThenFourNoops(step, s, c1, Block(c2));
    AppendNothing(Block(c2));
    CommandThenFourNoops(step, Iterate(step, s, 5), c2, []);
    AppendTwoPairs(s.traffic, Write(CommandFrame(c1)), Write(CommandFrame(c2)));
  }

  /** Sequence identity kept out of TwoCommandBlocks, whose context makes it expensive. */
  lemma AppendTwoPairs(log: seq<Transfer>, x: Transfer, y: Transfer)
    ensures log + [x, Read] + [y, Read] == log + [x, Read, y, Read]
  {
  }

  /**
   * Draining enableLighting's program from an idle, open session takes ten
   * ticks, writes the strip frame and the logo frame once each (each
   * followed by a read), empties the queue and leaves the lighting set.
   */
  lemma DrainLightingProgram(s: State, curves: Curves, on: bool)
    requires s.handleOpen && s.requests == []
    ensures var d := QuietTicks(EnableLighting(s, on), curves, 10);
            d.requests == [] && d.handleOpen && d.lighting == on
            && d.traffic == s.traffic + [Write(LightingRequest(Strip, on)), Read,
                                         Write(LightingRequest(Logo, on)), Read]
  {
    var e := EnableLighting(s, on);
    var strip, logo := if on then LightsOn else LightsOff, if on then LogoOn else LogoOff;
    LightingProgramBlocks(on);
    QuietTickIsSchedulerTick(curves);
    TwoCommandBlocks(x => QuietTick(x, curves), e, strip, logo);
  }

  // ---------------------------------------------------------------------
  // Timeouts and the online flag

  /** `k` reads in a row that each return nothing. */
  function SilentReads(s: State, curves: Curves, k: nat): (r: State) {
    if k == 0 then s else ReadFromDevice(SilentReads(s, curves, k - 1), curves, 0, Silence, false)
  }

  /** `k` reads in the transport trace. */
  function Reads(k: nat): (r: seq<Transfer>)
    ensures |r| == k
  {
    if k == 0 then [] else Reads(k - 1) + [Read]
  }

  /** One empty read short of the threshold. */
  lemma QuietEmptyRead(s: State, curves: Curves)
    requires s.handleOpen && s.timeout + 1 < OfflineThreshold
    ensures ReadFromDevice(s, curves, 0, Silence, false) == s.(timeout := s.timeout + 1, traffic := s.traffic + [Read])
  {
  }

  /** Below the threshold an empty read only counts itself; nothing is signalled. */
  lemma {:induction false} SilentReadsBelowThreshold(s: State, curves: Curves, k: nat)
    requires s.handleOpen && s.timeout + k < OfflineThreshold
    ensures SilentReads(s, curves, k) == s.(timeout := s.timeout + k, traffic := s.traffic + Reads(k))
  {
    if k > 0 {
      SilentReadsBelowThreshold(s, curves, k - 1);
      var before := SilentReads(s, curves, k - 1);
      QuietEmptyRead(before, curves);
      assert s.traffic + Reads(k - 1) + [Read] == s.traffic + Reads(k);
    }
  }

  /**
   * An online headset with a fresh counter is still online after nineteen
   * empty reads and goes offline on the twentieth, with exactly one signal.
   */
  lemma OfflineAfterTwentySilentReads(s: State, curves: Curves)
    requires s.handleOpen && s.online && s.timeout == 0
    ensures SilentReads(s, curves, OfflineThreshold - 1).online
    ensures var t := SilentReads(s, curves, OfflineThreshold);
            !t.online && t.handleOpen && t.timeout == OfflineThreshold
            && t.events == s.events + [OnlineChanged(false)]
  {
    SilentReadsBelowThreshold(s, curves, OfflineThreshold - 1);
  }

  /**
   * The offline rule for any counter: an empty read that brings the counter
   * of an online headset to the threshold or past it takes the headset
   * offline with exactly one signal.
   */
  lemma EmptyReadAtThresholdGoesOffline(s: State, curves: Curves, w: seq<bv8>, resendOk: bool)
    requires |w| == ReadWindow && s.handleOpen && s.online && s.timeout + 1 >= OfflineThreshold
    ensures ReadFromDevice(s, curves, 0, w, resendOk)
            == s.(online := false, timeout := s.timeout + 1, traffic := s.traffic + [Read],
                  events := s.events + [OnlineChanged(false)])
  {
  }

  /**
   * Neither close() nor open() resets the counter, so after a reconnect
   * that follows a long outage the first empty read takes the headset
   * offline again at once.
   */
  lemma StaleCounterAfterReopen(s: State, curves: Curves, w: seq<bv8>, resendOk: bool)
    requires |w| == ReadWindow && s.handleOpen && s.timeout + 1 >= OfflineThreshold
    ensures var c := Close(s);
            var o := Open(c, true).next;
            var r := ReadFromDevice(o, curves, 0, w, resendOk);
            o.online && o.timeout == s.timeout
            && !r.online && r.events == c.events + [OnlineChanged(true), OnlineChanged(false)]
  {
  }

  /** An empty read while offline counts and signals nothing. */
  lemma SilentReadWhileOffline(s: State, curves: Curves, w: seq<bv8>, resendOk: bool)
    requires |w| == ReadWindow && s.handleOpen && !s.online
    ensures var r := ReadFromDevice(s, curves, 0, w, resendOk);
            r == s.(timeout := s.timeout + 1, traffic := s.traffic + [Read])
  {
  }

  /** Any read that returned a non-zero count, even a negative one, resets the counter. */
  lemma ReceivedReadResetsCounter(s: State, curves: Curves, n: int, w: seq<bv8>, resendOk: bool)
    requires |w| == ReadWindow && s.handleOpen && n != 0
    ensures ReadFromDevice(s, curves, n, w, resendOk).timeout == 0
  {
  }

  /**
   * A read of fewer than four bytes, or a negative count, is not a timeout:
   * it resets the counter, may bring the headset back online, and is then
   * dropped as unhandled.
   */
  lemma ShortReadIsDropped(s: State, curves: Curves, n: int, w: seq<bv8>, resendOk: bool)
    requires |w| == ReadWindow && s.handleOpen && n != 0 && n < 4
    ensures ReadFromDevice(s, curves, n, w, resendOk) == Received(s)
  {
  }

  /** After an outage, the first non-empty read signals that the headset is back. */
  lemma ReadAfterOutageRevives(s: State, curves: Curves, n: int, w: seq<bv8>, resendOk: bool)
    requires |w| == ReadWindow && s.handleOpen && !s.online && s.timeout >= OfflineThreshold && n != 0
    ensures var r := ReadFromDevice(s, curves, n, w, resendOk);
            |r.events| > |s.events| && r.events[|s.events|] == OnlineChanged(true)
    ensures var report := Classify(n, w);
            report.ButtonReport? || report.BatteryReport? || report.WakeReport?
            || report.BenignEcho? || report.Unhandled?
            ==> ReadFromDevice(s, curves, n, w, resendOk).online
  {
    var p := Received(s);
    assert p.events == s.events + [OnlineChanged(true)];
    assert p.events <= ReadFromDevice(s, curves, n, w, resendOk).events;
  }

  /** Short of the threshold, only a wake report brings an offline headset back online. */
  lemma NoRevivalBelowThreshold(s: State, curves: Curves, n: int, w: seq<bv8>, resendOk: bool)
    requires |w| == ReadWindow && s.handleOpen && !s.online && s.timeout < OfflineThreshold && n != 0
    requires !Classify(n, w).WakeReport?
    ensures !ReadFromDevice(s, curves, n, w, resendOk).online
  {
  }

  // ---------------------------------------------------------------------
  // Reports

  /** Button events name each bit that changed, carrying its new value. */
  lemma {:induction false} ButtonEdgesBelowExact(was: bv8, now: bv8, k: nat, i: nat, pressed: bool)
    requires i < k <= 8
    ensures ButtonPressed(i, pressed) in ButtonEdgesBelow(was, now, k)
            <==> Bit(was, i) != Bit(now, i) && pressed == Bit(now, i)
  {
    if i < k - 1 {
      ButtonEdgesBelowExact(was, now, k - 1, i, pressed);
    } else {
      var es := ButtonEdgesBelow(was, now, k - 1);
      forall j | 0 <= j < |es| ensures es[j] != ButtonPressed(i, pressed) { }
      assert ButtonPressed(i, pressed) !in es;
    }
  }

  /**
   * Exactly one buttonPressed(i, new bit) event per bit i where the old and
   * new masks differ, none for other bits, in index order.
   */
  lemma ButtonEdgesExact(was: bv8, now: bv8, i: nat, pressed: bool)
    requires i < 8
    ensures ButtonPressed(i, pressed) in ButtonEdges(was, now)
            <==> Bit(was, i) != Bit(now, i) && pressed == Bit(now, i)
    ensures forall j :: 0 <= j < |ButtonEdges(was, now)| ==> ButtonEdges(was, now)[j].index < 8
  {
    ButtonEdgesBelowExact(was, now, 8, i, pressed);
  }

  /** An unchanged mask emits no button events. */
  lemma {:induction false} SameMaskNoEdges(mask: bv8, k: nat)
    requires k <= 8
    ensures ButtonEdgesBelow(mask, mask, k) == []
  {
    if k > 0 {
      SameMaskNoEdges(mask, k - 1);
    }
  }

  /** Previous mask 0b01, new mask 0b11: one event, button 1 pressed. */
  lemma ButtonEdgesExample()
    ensures ButtonEdges(0x01, 0x03) == [ButtonPressed(1, true)]
  {
  }

  /**
   * A battery report stores all three fields and signals each of voltage,
   * charging and SoC exactly when its value changed.
   */
  lemma BatterySignalsOnlyChanges(s: State, curves: Curves, v: UInt16, charging: bool)
    ensures var r := OnBattery(s, curves, v, charging);
            var soc := SocLookup(Select(curves, charging), v);
            var d := r.events[|s.events|..];
            r.voltage == v && r.charging == charging && r.soc == soc % 0x1_0000
            && (VoltageChanged(v) in d <==> s.voltage != v)
            && (ChargingChanged(charging) in d <==> s.charging != charging)
            && (SocChanged(soc) in d <==> soc != s.soc)
            && |d| <= 3
  {
    var r := OnBattery(s, curves, v, charging);
    var soc := SocLookup(Select(curves, charging), v);
    assert r.events[|s.events|..] == BatterySignals(s, v, charging, soc);
    BatterySignalsExact(s, v, charging, soc);
  }

  lemma BatterySignalsExact(s: State, v: UInt16, charging: bool, soc: int)
    ensures var d := BatterySignals(s, v, charging, soc);
            (VoltageChanged(v) in d <==> s.voltage != v)
            && (ChargingChanged(charging) in d <==> s.charging != charging)
            && (SocChanged(soc) in d <==> soc != s.soc)
  {
    var a := if s.voltage != v then [VoltageChanged(v)] else [];
    var b := if s.charging != charging then [ChargingChanged(charging)] else [];
    var c := if soc != s.soc then [SocChanged(soc)] else [];
    assert BatterySignals(s, v, charging, soc) == a + b + c;
  }

  /** A sleep report takes the headset offline, signalling only if it was online. */
  lemma SleepGoesOffline(s: State, curves: Curves, resendOk: bool)
    ensures var r := Dispatch(s, curves, SleepReport, resendOk);
            !r.online && r.events == s.events + (if s.online then [OnlineChanged(false)] else [])
            && r.traffic == s.traffic && r.lighting == s.lighting
  {
  }

  /**
   * A wake report while offline brings the headset online and re-sends the
   * desired lighting; while online it does nothing.
   */
  lemma WakeRestoresLighting(s: State, curves: Curves)
    requires s.handleOpen
    ensures var r := Dispatch(s, curves, WakeReport, true);
            if s.online then r == s
            else r.online && r.handleOpen && r.lighting == s.lighting
                 && r.traffic == s.traffic + [Write(LightingRequest(Strip, s.lighting))]
                 && r.events == s.events + [OnlineChanged(true), LightingChanged(s.lighting)]
  {
  }

  /**
   * After an outage of twenty or more empty reads, the read that brings the
   * headset back online absorbs a wake report: the lighting is not re-sent.
   */
  lemma WakeAfterOutageSkipsLighting(s: State, curves: Curves, n: int, w: seq<bv8>, resendOk: bool)
    requires |w| == ReadWindow && s.handleOpen && !s.online && s.timeout >= OfflineThreshold
    requires n != 0 && Classify(n, w).WakeReport?
    ensures var r := ReadFromDevice(s, curves, n, w, resendOk);
            r.online && r.traffic == s.traffic + [Read]
            && r.events == s.events + [OnlineChanged(true)]
  {
  }

  /**
   * A lighting confirmation re-sends the desired strip lighting exactly when
   * the confirmed "some light is on" disagrees with it; the desired value
   * itself never changes.
   */
  lemma ConfirmationReconciles(s: State, curves: Curves, zone: bv8, mode: bv8, resendOk: bool)
    requires s.handleOpen
    ensures var r := Dispatch(s, curves, LightingReport(zone, mode), resendOk);
            r.lighting == s.lighting
            && r.traffic == s.traffic + (if AnyLightOn(zone, mode) != s.lighting
                                         then [Write(LightingRequest(Strip, s.lighting))] else [])
  {
  }

  /** The headset echoing the frame that set the current lighting causes no further write. */
  lemma OwnEchoNeedsNoResend(s: State, curves: Curves, zone: Zone, resendOk: bool)
    ensures Dispatch(s, curves, Classify(ReadWindow, LightingRequest(zone, s.lighting)[..ReadWindow]), resendOk) == s
  {
    LightingEchoIsConfirmation(zone, s.lighting);
  }
}
