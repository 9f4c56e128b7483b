/**
 * HeadsetHID as an object: the fields of the engine, updated in place by
 * one method per member function of the source. Every method is proved to
 * leave the object in the state the matching function of module Engine
 * computes, so the properties proved in module Properties hold of it.
 */
module Headset {
  import opened Protocol
  import opened Curve
  import Engine

  class HeadsetHid {
    /** m_handle != nullptr */
    var handleOpen: bool
    var online: bool
    var charging: bool
    var lighting: bool
    var voltage: UInt16
    var soc: UInt16
    var buttons: bv8
    var timeout: nat
    var requests: seq<Engine.RequestType>
    /** Every signal emitted so far, in order. */
    var events: seq<Engine.Event>
    /** Every write and read handed to the transport so far, in order. */
    var traffic: seq<Engine.Transfer>
    /** The discharging and charging curves loaded at start-up. */
    const curves: Curves

    /** The fields as an Engine state. */
    function Snapshot(): Engine.State
      reads this
    {
      Engine.State(handleOpen, online, charging, lighting, voltage, soc, buttons, timeout,
                   requests, events, traffic)
    }

    /** The engine never reports the headset online without a handle. */
    ghost predicate Valid()
      reads this
    {
      Engine.Valid(Snapshot())
    }

    /** The curves are the loaded ones; m_soc has no initialiser, so its first value is a parameter. */
    constructor(curves: Curves, soc: UInt16)
      ensures this.curves == curves
      ensures Snapshot() == Engine.Initial(soc) && Valid()
    {
      this.curves := curves;
      handleOpen, online, charging, lighting := false, false, false, false;
      voltage, this.soc, buttons, timeout := 0, soc, 0, 0;
      requests, events, traffic := [], [], [];
    }

    /** The 5-second poll timer: queue a voltage query. */
    method PollVoltage()
      requires Valid()
      modifies this
      ensures Snapshot() == Engine.PollVoltage(old(Snapshot())) && Valid()
    {
      requests := requests + [Engine.Voltage];
    }

    /** Queue the lighting micro-program, one tag at a time. */
    method EnableLighting(on: bool)
      requires Valid()
      modifies this
      ensures Snapshot() == Engine.EnableLighting(old(Snapshot()), on) && Valid()
    {
      if on {
        requests := requests + [Engine.LightsOn, Engine.Noop, Engine.Noop, Engine.Noop, Engine.Noop, Engine.LogoOn];
      } else {
        requests := requests + [Engine.LightsOff, Engine.Noop, Engine.Noop, Engine.Noop, Engine.Noop, Engine.LogoOff];
      }
      requests := requests + [Engine.Noop, Engine.Noop, Engine.Noop, Engine.Noop];
    }

    /** open(): `found` says whether the headset was enumerated and its path opened. */
    method Open(found: bool) returns (ok: bool)
      modifies this
      ensures Engine.Step(ok, Snapshot()) == Engine.Open(old(Snapshot()), found)
      ensures ok ==> Valid()
    {
      if !found {
        return false;
      }
      handleOpen := true;
      online := true;
      events := events + [Engine.OnlineChanged(true)];
      requests := requests + [Engine.Version];
      return true;
    }

    method Close()
      requires Valid()
      modifies this
      ensures Snapshot() == Engine.Close(old(Snapshot()))
      ensures Valid()
    {
      if !handleOpen {
        return;
      }
      handleOpen := false;
      online := false;
      events := events + [Engine.OnlineChanged(false)];
    }

    /** Establishes the invariant whatever the state before: a failed reopen forces the headset offline. */
    method ReadyForRequest(found: bool) returns (ok: bool)
      modifies this
      ensures Engine.Step(ok, Snapshot()) == Engine.ReadyForRequest(old(Snapshot()), found)
      ensures Valid()
    {
      if !handleOpen {
        var attempt := Open(found);
        if !attempt {
          if online {
            events := events + [Engine.OnlineChanged(false)];
          }
          online := false;
          return false;
        }
      }
      return true;
    }

    /** hid_write of one frame; a failed write closes the session. */
    method Transmit(frame: seq<bv8>, writeOk: bool) returns (ok: bool)
      requires Valid()
      modifies this
      ensures Engine.Step(ok, Snapshot()) == Engine.Transmit(old(Snapshot()), frame, writeOk)
      ensures Valid()
    {
      traffic := traffic + [Engine.Write(frame)];
      if !writeOk {
        Close();
        return false;
      }
      return true;
    }

    method ReadVersion(found: bool, writeOk: bool) returns (ok: bool)
      requires Valid()
      modifies this
      ensures Engine.Step(ok, Snapshot()) == Engine.Send(old(Snapshot()), VersionRequest, found, writeOk)
      ensures Valid()
    {
      ok := ReadyForRequest(found);
      if !ok {
        return;
      }
      ok := Transmit(VersionRequest, writeOk);
    }

    method ReadVoltage(found: bool, writeOk: bool) returns (ok: bool)
      requires Valid()
      modifies this
      ensures Engine.Step(ok, Snapshot()) == Engine.Send(old(Snapshot()), VoltageRequest, found, writeOk)
      ensures Valid()
    {
      ok := ReadyForRequest(found);
      if !ok {
        return;
      }
      ok := Transmit(VoltageRequest, writeOk);
    }

    method SetLighting(on: bool, found: bool, writeOk: bool) returns (ok: bool)
      requires Valid()
      modifies this
      ensures Engine.Step(ok, Snapshot()) == Engine.SetLighting(old(Snapshot()), on, found, writeOk)
      ensures Valid()
    {
      ok := ReadyForRequest(found);
      if !ok {
        return;
      }
      ok := Transmit(LightingRequest(Strip, on), writeOk);
      if !ok {
        return;
      }
      lighting := on;
      events := events + [Engine.LightingChanged(on)];
    }

    method SetLogoLighting(on: bool, found: bool, writeOk: bool) returns (ok: bool)
      requires Valid()
      modifies this
      ensures Engine.Step(ok, Snapshot()) == Engine.Send(old(Snapshot()), LightingRequest(Logo, on), found, writeOk)
      ensures Valid()
    {
      ok := ReadyForRequest(found);
      if !ok {
        return;
      }
      ok := Transmit(LightingRequest(Logo, on), writeOk);
    }

    /**
     * voltageToSoC with the curve selected rather than copied over the
     * discharging one: scan for the first threshold the voltage reaches.
     */
    method VoltageToSoC(voltage: int, isCharging: bool) returns (soc: int)
      ensures soc == SocLookup(Select(curves, isCharging), voltage)
    {
      var table := if isCharging then curves.charging else curves.discharging;
      if |table| == 0 {
        return 0;
      }
      var i := 0;
      while i < |table|
        invariant 0 <= i <= |table|
        invariant forall j :: 0 <= j < i ==> voltage < table[j].threshold
      {
        if table[i].threshold <= voltage {
          SocLookupFirstMatch(table, voltage, i);
          return table[i].percent;
        }
        i := i + 1;
      }
      SocLookupFallsBackToLast(table, voltage);
      return table[|table| - 1].percent;
    }

    /** A button report: one signal per bit of `now` that differs from `buttons`, then store `now`. */
    method OnButtons(now: bv8)
      requires Valid()
      modifies this
      ensures Snapshot() == old(Snapshot()).(buttons := now, events := old(events) + Engine.ButtonEdges(old(buttons), now))
      ensures Valid()
    {
      var emitted: seq<Engine.Event> := [];
      var mask: bv8 := 1;
      var x := 0;
      while x < 8
        invariant 0 <= x <= 8
        invariant x < 8 ==> mask == (1 as bv8) << x
        invariant emitted == Engine.ButtonEdgesBelow(buttons, now, x)
      {
        var wasOn := buttons & mask != 0;
        var isOn := now & mask != 0;
        if wasOn != isOn {
          emitted := emitted + [Engine.ButtonPressed(x, isOn)];
        }
        mask := mask << 1;
        x := x + 1;
      }
      buttons := now;
      events := events + emitted;
    }

    /**
     * A battery report: store voltage, regime and SoC, signalling each one
     * that changed. The signals are collected and appended in emission
     * order once the fields are stored.
     */
    method OnBattery(v: UInt16, isCharging: bool)
      requires Valid()
      modifies this
      ensures Snapshot() == Engine.OnBattery(old(Snapshot()), curves, v, isCharging)
      ensures Valid()
    {
      var emitted: seq<Engine.Event> := [];
      if voltage != v {
        emitted := emitted + [Engine.VoltageChanged(v)];
      }
      if charging != isCharging {
        emitted := emitted + [Engine.ChargingChanged(isCharging)];
      }
      var newSoc := VoltageToSoC(v, isCharging);
      if newSoc != soc {
        emitted := emitted + [Engine.SocChanged(newSoc)];
      }
      assert emitted == Engine.BatterySignals(Snapshot(), v, isCharging, newSoc);
      voltage, charging, soc := v, isCharging, newSoc % 0x1_0000;
      events := events + emitted;
    }

    /** readFromDevice(): one read of `n` bytes into the zero-filled window `w`, and its effect. */
    method ReadFromDevice(n: int, w: seq<bv8>, resendOk: bool)
      requires |w| == ReadWindow && Valid()
      modifies this
      ensures Snapshot() == Engine.ReadFromDevice(old(Snapshot()), curves, n, w, resendOk)
      ensures Valid()
    {
      if !handleOpen {
        return;
      }
      traffic := traffic + [Engine.Read];
      if n == 0 {
        timeout := timeout + 1;
        if online && timeout >= Engine.OfflineThreshold {
          online := false;
          events := events + [Engine.OnlineChanged(false)];
        }
        return;
      } else if !online && timeout >= Engine.OfflineThreshold {
        online := true;
        events := events + [Engine.OnlineChanged(true)];
      }
      timeout := 0;
      Dispatch(Classify(n, w), resendOk);
    }

    /** The tail of readFromDevice: act on the classified report. */
    method Dispatch(report: Report, resendOk: bool)
      requires handleOpen && Valid()
      modifies this
      ensures Snapshot() == Engine.Dispatch(old(Snapshot()), curves, report, resendOk)
      ensures Valid()
    {
      match report
      case ButtonReport(mask) =>
        OnButtons(mask);
      case BatteryReport(v, isCharging) =>
        OnBattery(v, isCharging);
      case SleepReport =>
        if online {
          online := false;
          events := events + [Engine.OnlineChanged(false)];
        }
      case WakeReport =>
        if !online {
          online := true;
          events := events + [Engine.OnlineChanged(true)];
          var resent := SetLighting(lighting, false, resendOk);
        }
      case BenignEcho =>
      case LightingReport(zone, mode) =>
        if AnyLightOn(zone, mode) != lighting {
          var resent := SetLighting(lighting, false, resendOk);
        }
      case Unhandled =>
    }

    /** processRequest(): pop one tag and run it, then read; an empty queue only reads. */
    method ProcessRequest(found: bool, writeOk: bool, n: int, w: seq<bv8>, resendOk: bool)
      requires |w| == ReadWindow && Valid()
      modifies this
      ensures Snapshot() == Engine.ProcessRequest(old(Snapshot()), curves, found, writeOk, n, w, resendOk)
      ensures Valid()
    {
      if requests == [] {
        ReadFromDevice(n, w, resendOk);
        return;
      }
      var t := requests[0];
      requests := requests[1..];
      if Engine.Acts(t) {
        Command(t, found, writeOk);
        ReadFromDevice(n, w, resendOk);
      }
    }

    /** The switch of processRequest for a tag that sends a command. */
    method Command(t: Engine.RequestType, found: bool, writeOk: bool)
      requires Valid() && Engine.Acts(t)
      modifies this
      ensures Snapshot() == Engine.Command(old(Snapshot()), t, found, writeOk)
      ensures Valid()
    {
      var ok;
      match t
      case Version => ok := ReadVersion(found, writeOk);
      case Voltage => ok := ReadVoltage(found, writeOk);
      case LightsOn => ok := SetLighting(true, found, writeOk);
      case LogoOn => ok := SetLogoLighting(true, found, writeOk);
      case LightsOff => ok := SetLighting(false, found, writeOk);
      case LogoOff => ok := SetLogoLighting(false, found, writeOk);
    }
  }
}
