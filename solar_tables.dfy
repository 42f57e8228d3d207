/** The two lookup tables of the calculator: peak sun hours per location class
    and the production multiplier per roof orientation. */
module SolarTables {

  /** The `location` choices of the form. */
  datatype Location = High | Average | Low

  /** The `roofType` choices of the form. */
  datatype RoofOrientation = South | Southeast | Southwest | East | West | North

  /** Solar irradiance in kWh per square metre per day. A sunnier location
      class never has fewer peak sun hours. */
  function PeakSunHours(loc: Location): (h: real)
    ensures h == 5.5 || h == 4.2 || h == 3.5
    ensures 3.5 <= h <= 5.5
    ensures loc == High <==> h == 5.5
    ensures loc == Low <==> h == 3.5
  {
    match loc
    case High => 5.5
    case Average => 4.2
    case Low => 3.5
  }

  /** Share of the south-facing yield that a roof of this orientation gets:
      south is best, the two diagonals tie, east and west tie, north is worst. */
  function RoofMultiplier(roof: RoofOrientation): (m: real)
    ensures 0.6 <= m <= 1.0
    ensures m == 1.0 <==> roof == South
    ensures m == 0.6 <==> roof == North
  {
    match roof
    case South => 1.0
    case Southeast => 0.95
    case Southwest => 0.95
    case East => 0.85
    case West => 0.85
    case North => 0.6
  }

  /** The multiplier is symmetric about the north-south axis and decreases as
      the roof turns away from south. */
  lemma RoofMultiplierOrder()
    ensures RoofMultiplier(Southeast) == RoofMultiplier(Southwest)
    ensures RoofMultiplier(East) == RoofMultiplier(West)
    ensures RoofMultiplier(North) < RoofMultiplier(East) < RoofMultiplier(Southeast) < RoofMultiplier(South)
  {
  }

  /** Inverter, wiring and shading losses, a flat 15%. */
  const SystemEfficiency: real := 0.85
}
