/**
 * The HID++ long-report framing the G733 headset engine speaks: the fixed
 * 20-byte command frames it writes, and the classification of the 7-byte
 * window it reads back.
 */
module Protocol {

  /** HID++ long-report id, byte 0 of every frame. */
  const LongReport: bv8 := 0x11
  /** Address of the device behind the wireless receiver, byte 1 of every frame. */
  const Receiver: bv8 := 0xff
  /** Every outbound command is one long report of this many bytes. */
  const LongReportLength: nat := 20
  /** Size of the buffer one read fills. */
  const ReadWindow: nat := 7

  /** A quint16 field of the engine. */
  type UInt16 = x: int | 0 <= x < 0x1_0000

  /** The two light zones of the headset: the strips and the logo. */
  datatype Zone = Strip | Logo

  /** A command buffer whose initialiser lists `prefix`; C++ zero-fills the rest. */
  function Padded(prefix: seq<bv8>): (f: seq<bv8>)
    requires |prefix| <= LongReportLength
    ensures |f| == LongReportLength && f[..|prefix|] == prefix
    ensures forall i :: |prefix| <= i < |f| ==> f[i] == 0
  {
    prefix + seq(LongReportLength - |prefix|, _ => 0)
  }

  /** readVoltage's frame: feature 0x08, function 0x0a. */
  const VoltageRequest: seq<bv8> := Padded([LongReport, Receiver, 0x08, 0x0a])

  /** readVersion's frame. */
  const VersionRequest: seq<bv8> := Padded([LongReport, Receiver, 0x11, 0xff, 0x00, 0x11, 0x00, 0x00, 0xaf])

  /** Byte 4 of a lighting frame selects the zone. */
  function ZoneSelector(zone: Zone): (selector: bv8) {
    if zone == Strip then 0x01 else 0x00
  }

  /** Bytes 5..15 of a lighting frame that switches a zone on (breathing mode). */
  const BreathingEffect: seq<bv8> := [0x02, 0x00, 0xb6, 0xff, 0x0f, 0xa0, 0x00, 0x64, 0x00, 0x00, 0x00]

  /** Frame written by setLighting (zone Strip) and setLogoLighting (zone Logo). */
  function LightingRequest(zone: Zone, on: bool): (f: seq<bv8>)
    ensures |f| == LongReportLength && f[0] == LongReport && f[1] == Receiver
    ensures f[2] == 0x04 && f[3] == 0x3c && f[4] == ZoneSelector(zone)
    ensures f[5] == (if on then 0x02 else 0x00) && f[6] == 0x00
    ensures !on ==> forall i :: 5 <= i < |f| ==> f[i] == 0
    ensures on ==> f[5..16] == BreathingEffect
    ensures forall i :: 16 <= i < |f| ==> f[i] == 0
  {
    var effect: seq<bv8> := if on then BreathingEffect else seq(11, _ => 0);
    Padded([LongReport, Receiver, 0x04, 0x3c, ZoneSelector(zone)] + effect)
  }

  /** What one read is taken to be, in the priority order of readFromDevice. */
  datatype Report =
    | ButtonReport(mask: bv8)
    | BatteryReport(voltage: UInt16, charging: bool)
    | SleepReport
    | WakeReport
    | BenignEcho
    | LightingReport(zone: bv8, mode: bv8)
    | Unhandled

  /** The read delivered at least the 4-byte long-report header from the receiver. */
  predicate Framed(n: int, w: seq<bv8>)
    requires |w| == ReadWindow
  {
    n >= 4 && w[0] == LongReport && w[1] == Receiver
  }

  /**
   * Classify a read of `n` bytes into the zero-filled window `w`. A read of
   * zero bytes never reaches this point (it is a timeout); a negative count
   * (a transport error) is classified like any other short read.
   */
  function Classify(n: int, w: seq<bv8>): (r: Report)
    requires |w| == ReadWindow
    ensures !Framed(n, w) ==> r == Unhandled
    ensures r.ButtonReport? <==> Framed(n, w) && n >= 5 && w[2] == 0x05 && w[3] == 0x00
    ensures r.BatteryReport? <==> Framed(n, w) && n >= 7 && w[2] == 0x08 && w[3] == 0x0a
    ensures r.SleepReport? <==> Framed(n, w) && n >= 7 && w[2..] == [0x08, 0x00, 0x00, 0x00, 0x00]
    ensures r.WakeReport? <==> Framed(n, w) && n >= 7 && w[2] == 0x08 && w[3] == 0x00 && w[6] == 0x01
    ensures r.BenignEcho? <==> Framed(n, w) && n >= 7 && w[2..] == [0xff, 0x08, 0x0a, 0x05, 0x00]
    ensures r.LightingReport? <==> Framed(n, w) && n >= 7 && w[2] == 0x04 && w[3] == 0x3c && w[6] == 0x00
    ensures r.ButtonReport? ==> r.mask == w[4]
    ensures r.BatteryReport? ==>
              r.voltage / 256 == w[4] as int && r.voltage % 256 == w[5] as int
              && (r.charging <==> w[6] == 0x03)
    ensures r.LightingReport? ==> r.zone == w[4] && r.mode == w[5]
  {
    if Framed(n, w) then
      if n >= 5 && w[2] == 0x05 && w[3] == 0x00 then
        ButtonReport(w[4])
      else if n >= 7 then
        if w[2] == 0x08 && w[3] == 0x0a then
          BatteryReport(w[4] as int * 256 + w[5] as int, w[6] == 0x03)
        else if w[2] == 0x08 && w[3] == 0x00 && w[4] == 0x00 && w[5] == 0x00 && w[6] == 0x00 then
          SleepReport
        else if w[2] == 0x08 && w[3] == 0x00 && w[6] == 0x01 then
          WakeReport
        else if w[2] == 0xff && w[3] == 0x08 && w[4] == 0x0a && w[5] == 0x05 && w[6] == 0x00 then
          BenignEcho
        else if w[2] == 0x04 && w[3] == 0x3c && w[6] == 0x00 then
          LightingReport(w[4], w[5])
        else
          Unhandled
      else
        Unhandled
    else
      Unhandled
  }

  /** A lighting confirmation says some light is on when strip or logo reports breathing mode. */
  predicate AnyLightOn(zone: bv8, mode: bv8) {
    (zone == 0x01 && mode == 0x02) || (zone == 0x00 && mode == 0x02)
  }

  /** The decoder looks only at the bytes the read actually delivered. */
  lemma ClassifyReadsOnlyReceivedBytes(n: int, w: seq<bv8>, w': seq<bv8>)
    requires |w| == ReadWindow && |w'| == ReadWindow
    requires forall i :: 0 <= i < n && i < ReadWindow ==> w[i] == w'[i]
    ensures Classify(n, w) == Classify(n, w')
  {
    if n >= 4 {
      assert w[..4] == w'[..4] by {
        forall i | 0 <= i < 4 ensures w[i] == w'[i] { }
      }
      if n >= 5 { assert w[4] == w'[4]; }
      if n >= 7 {
        forall i | 0 <= i < ReadWindow ensures w[i] == w'[i] { }
        assert w == w';
      }
    }
  }

  /** The query frames: 20 bytes, the long-report header, their opcode bytes, zeros after the initialiser. */
  lemma QueryFrameLayout()
    ensures |VoltageRequest| == LongReportLength && VoltageRequest[..4] == [0x11, 0xff, 0x08, 0x0a]
    ensures forall i :: 4 <= i < LongReportLength ==> VoltageRequest[i] == 0
    ensures |VersionRequest| == LongReportLength
    ensures VersionRequest[..9] == [0x11, 0xff, 0x11, 0xff, 0x00, 0x11, 0x00, 0x00, 0xaf]
    ensures forall i :: 9 <= i < LongReportLength ==> VersionRequest[i] == 0
  {
  }

  /** Strip and logo frames for the same setting differ in byte 4 alone. */
  lemma StripAndLogoFramesDifferOnlyInZone(on: bool)
    ensures forall i :: 0 <= i < LongReportLength && i != 4 ==>
              LightingRequest(Strip, on)[i] == LightingRequest(Logo, on)[i]
    ensures LightingRequest(Strip, on)[4] == 0x01 && LightingRequest(Logo, on)[4] == 0x00
  {
  }

  /**
   * When the headset confirms a lighting command by echoing its first seven
   * bytes, the decoder reads it as a lighting confirmation, and "some light
   * is on" is exactly the setting that was sent.
   */
  lemma LightingEchoIsConfirmation(zone: Zone, on: bool)
    ensures var echo := LightingRequest(zone, on)[..ReadWindow];
            Classify(ReadWindow, echo) == LightingReport(ZoneSelector(zone), if on then 0x02 else 0x00)
            && (AnyLightOn(ZoneSelector(zone), if on then 0x02 else 0x00) <==> on)
  {
  }
}
