/** Simulated sensor readings. task_value_readings draws four rand() values
    and derives pH, EC, temperature and the water-level flag from them.
    Quantities are kept in integer hundredths of their unit. */
module Readings {

  /** One measurement; pH, EC and temperature in hundredths. */
  datatype Reading = Reading(phH: int, ecH: int, tempH: int, waterOk: bool)

  /** The four rand() results one task call consumes, in call order. */
  datatype Draws = Draws(ph: nat, ec: nat, temp: nat, level: nat)

  /** The values the firmware holds before the first readings task. */
  const Boot: Reading := Reading(0, 0, 0, false)

  /** The fixed ranges simulated readings stay in. */
  predicate InRange(r: Reading) {
    && 500 <= r.phH <= 699
    && 0 <= r.ecH <= 999
    && 6000 <= r.tempH <= 6499
  }

  /** task_value_readings: pH = 5 + (rand() % 200) / 100,
      EC = (rand() % 1000) / 100, temperature = 60 + (rand() % 500) / 100,
      and the water level is OK exactly when rand() % 100 exceeds 10. */
  function Simulate(d: Draws): (r: Reading)
    ensures InRange(r)
    ensures r.waterOk <==> d.level % 100 > 10
  {
    Reading(500 + d.ph % 200, d.ec % 1000, 6000 + d.temp % 500, d.level % 100 > 10)
  }

  /** The ranges are exact: every in-range reading is produced by some draws. */
  lemma SimulateCovers(r: Reading)
    requires InRange(r)
    ensures exists d :: Simulate(d) == r
  {
    var d := Draws(r.phH - 500, r.ecH, r.tempH - 6000, if r.waterOk then 11 else 0);
    assert Simulate(d) == r;
  }

  /** `(int)(x * 10)` for a quantity x held in hundredths: the conversion
      truncates toward zero, as C's float-to-int conversion does. */
  function ToChartPoint(hundredths: int): (p: int)
    ensures hundredths >= 0 ==> 10 * p <= hundredths < 10 * p + 10
    ensures hundredths < 0 ==> 10 * p - 10 < hundredths <= 10 * p
  {
    if hundredths >= 0 then hundredths / 10 else -((-hundredths) / 10)
  }

  /** The pH and EC chart points derived from an in-range reading. */
  lemma ChartPointsOfReading(r: Reading)
    requires InRange(r)
    ensures 50 <= ToChartPoint(r.phH) <= 69
    ensures 0 <= ToChartPoint(r.ecH) <= 99
  {
  }
}
