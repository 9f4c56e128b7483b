/**
 * The calibration curves that turn a battery voltage into a state of
 * charge. Each curve is an ordered list of (threshold, percentage) points;
 * the lookup returns the percentage of the first point whose threshold is
 * at most the voltage, the last point's percentage when none is, and 0 for
 * an empty curve.
 */
module Curve {

  /** One line of a calibration file: a voltage threshold and its percentage. */
  datatype CurvePoint = CurvePoint(threshold: int, percent: int)

  /** The discharging and charging curves, as loaded at start-up. */
  datatype Curves = Curves(discharging: seq<CurvePoint>, charging: seq<CurvePoint>)

  /** The curve for the given charging regime. */
  function Select(curves: Curves, charging: bool): (table: seq<CurvePoint>) {
    if charging then curves.charging else curves.discharging
  }

  /** First-match scan of `table`, falling back to its last point. */
  function SocLookup(table: seq<CurvePoint>, voltage: int): (soc: int)
    ensures table == [] ==> soc == 0
    ensures table != [] ==> exists i :: 0 <= i < |table| && table[i].percent == soc
  {
    if |table| == 0 then 0
    else if table[0].threshold <= voltage || |table| == 1 then table[0].percent
    else
      var rest := SocLookup(table[1..], voltage);
      ghost var i :| 0 <= i < |table| - 1 && table[1..][i].percent == rest;
      assert table[i + 1].percent == rest;
      rest
  }

  /** The lookup returns the first point whose threshold the voltage reaches. */
  lemma {:induction false} SocLookupFirstMatch(table: seq<CurvePoint>, voltage: int, i: nat)
    requires i < |table| && table[i].threshold <= voltage
    requires forall j :: 0 <= j < i ==> voltage < table[j].threshold
    ensures SocLookup(table, voltage) == table[i].percent
  {
    if i > 0 {
      forall j | 0 <= j < i - 1 ensures voltage < table[1..][j].threshold {
        assert table[1..][j] == table[j + 1];
      }
      SocLookupFirstMatch(table[1..], voltage, i - 1);
    }
  }

  /** When the voltage is below every threshold, the last point's percentage is returned. */
  lemma {:induction false} SocLookupFallsBackToLast(table: seq<CurvePoint>, voltage: int)
    requires table != []
    requires forall j :: 0 <= j < |table| ==> voltage < table[j].threshold
    ensures SocLookup(table, voltage) == table[|table| - 1].percent
  {
    if |table| > 1 {
      forall j | 0 <= j < |table| - 1 ensures voltage < table[1..][j].threshold {
        assert table[1..][j] == table[j + 1];
      }
      SocLookupFallsBackToLast(table[1..], voltage);
    }
  }

  /** Percentages never rise along the table (highest charge first). */
  predicate PercentsNonIncreasing(table: seq<CurvePoint>) {
    forall i, j :: 0 <= i < j < |table| ==> table[j].percent <= table[i].percent
  }

  /**
   * For a table ordered highest charge first, the lookup is a monotone step
   * function of the voltage.
   */
  lemma {:induction false} SocLookupMonotone(table: seq<CurvePoint>, v1: int, v2: int)
    requires PercentsNonIncreasing(table)
    requires v1 <= v2
    ensures SocLookup(table, v1) <= SocLookup(table, v2)
  {
    if |table| > 1 {
      if table[0].threshold <= v2 {
        var i :| 0 <= i < |table| && table[i].percent == SocLookup(table, v1);
        assert i == 0 || table[i].percent <= table[0].percent;
      } else {
        assert PercentsNonIncreasing(table[1..]) by {
          forall i, j | 0 <= i < j < |table| - 1
            ensures table[1..][j].percent <= table[1..][i].percent
          {
            assert table[1..][i] == table[i + 1] && table[1..][j] == table[j + 1];
          }
        }
        SocLookupMonotone(table[1..], v1, v2);
      }
    }
  }

  /** An example curve, highest threshold first. */
  lemma SocLookupExample()
    ensures var t := [CurvePoint(240, 100), CurvePoint(200, 50), CurvePoint(0, 0)];
            SocLookup(t, 250) == 100 && SocLookup(t, 210) == 50
            && SocLookup(t, 0) == 0 && SocLookup(t, -5) == 0
  {
  }

  /**
   * voltageToSoC as written: `map` is a reference bound to the discharging
   * curve, so selecting the charging curve copy-assigns it over the
   * discharging one. Returns the percentage and the curves afterwards.
   */
  function VoltageToSoCAsWritten(curves: Curves, voltage: int, charging: bool): (r: (int, Curves))
    ensures r.0 == SocLookup(Select(curves, charging), voltage)
    ensures r.1.charging == curves.charging
    ensures r.1.discharging == Select(curves, charging)
  {
    var after := if charging then curves.(discharging := curves.charging) else curves;
    (SocLookup(after.discharging, voltage), after)
  }

  /** After one charging lookup, every later discharging lookup reads the charging curve. */
  lemma ChargingLookupReplacesDischargingCurve(curves: Curves, v1: int, v2: int)
    ensures var after := VoltageToSoCAsWritten(curves, v1, true).1;
            VoltageToSoCAsWritten(after, v2, false).0 == SocLookup(curves.charging, v2)
  {
  }

  /**
   * A concrete instance: with a discharging curve that reads 10% and a
   * charging curve that reads 90%, one charging lookup makes the next
   * discharging lookup report 90% instead of 10%.
   */
  lemma AliasedLookupCounterexample()
    ensures var curves := Curves([CurvePoint(0, 10)], [CurvePoint(0, 90)]);
            var after := VoltageToSoCAsWritten(curves, 3700, true).1;
            VoltageToSoCAsWritten(after, 3700, false).0 == 90
            && SocLookup(Select(curves, false), 3700) == 10
  {
  }
}
