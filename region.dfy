/** The India bounding box and the synthetic soil table used when no
    measured data is available. */
module Region {
  import opened SoilTypes

  /** The closed box 6.0 <= lat <= 37.2, 68.0 <= lon <= 97.5. */
  predicate InIndia(lat: real, lon: real) {
    6.0 <= lat <= 37.2 && 68.0 <= lon <= 97.5
  }

  function Sample(clay: real, sand: real, silt: real, ph: real): (p: Props)
    ensures p.Keys == {Clay, Sand, Silt, PhH2O}
    ensures p[Clay] == clay && p[Sand] == sand && p[Silt] == silt && p[PhH2O] == ph
  {
    map[Clay := clay, Sand := sand, Silt := silt, PhH2O := ph]
  }

  /** Mock soil data by latitude band. The result is never empty (the source's
      `Optional` return is never None), carries all four properties, and its
      texture fractions always make up 100 percent. */
  function MockSoilData(lat: real, lon: real): (p: Props)
    ensures p.Keys == {Clay, Sand, Silt, PhH2O}
    ensures HasTexture(p) && TextureSum(p) == 100.0
    ensures 6.8 <= p[PhH2O] <= 7.5
    ensures !InIndia(lat, lon) ==> p == Sample(20.0, 50.0, 30.0, 7.0)
  {
    if InIndia(lat, lon) then
      if lat > 30.0 then Sample(25.0, 45.0, 30.0, 7.5)        // northern band
      else if lat < 15.0 then Sample(35.0, 40.0, 25.0, 6.8)   // southern band
      else Sample(40.0, 35.0, 25.0, 7.2)                      // central band
    else
      Sample(20.0, 50.0, 30.0, 7.0)                           // global default
  }

  /** Inside the box the three bands split at 15 and 30, both boundaries
      belonging to the central band. */
  lemma MockBands(lat: real, lon: real)
    requires InIndia(lat, lon)
    ensures lat > 30.0 ==> MockSoilData(lat, lon) == Sample(25.0, 45.0, 30.0, 7.5)
    ensures lat < 15.0 ==> MockSoilData(lat, lon) == Sample(35.0, 40.0, 25.0, 6.8)
    ensures 15.0 <= lat <= 30.0 ==> MockSoilData(lat, lon) == Sample(40.0, 35.0, 25.0, 7.2)
  {
  }

  /** The box is closed: its corners are inside, and a point just past a corner is not. */
  lemma BoxIsClosed()
    ensures InIndia(6.0, 68.0) && InIndia(37.2, 97.5)
    ensures !InIndia(37.21, 97.5) && !InIndia(6.0, 67.99)
    ensures MockSoilData(37.2, 97.5) == Sample(25.0, 45.0, 30.0, 7.5)
    ensures MockSoilData(37.21, 97.5) == Sample(20.0, 50.0, 30.0, 7.0)
  {
  }
}
