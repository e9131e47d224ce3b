/** The derived view of one frame: each location with its reading attached,
    the colour a reading is drawn in, and the panel of IT-hub deltas against
    the Cubbon Park baseline. All of it is pure computation over the
    constant tables. */
module FrameView {
  import opened HeatData

  // ---------------------------------------------------------------------
  // Attaching readings to locations
  // ---------------------------------------------------------------------

  /** A location together with its reading in the current frame: the
      location record spread out, with `temp` added. */
  datatype HeatPoint = HeatPoint(
    name: string,
    x: int,
    y: int,
    kind: LocationKind,
    lat: real,
    lon: real,
    temp: real)

  /** Reference lookup: each of the five location names mapped to the sample
      field that holds its reading. */
  function SampleByName(d: Sample): map<string, real> {
    map[
      "Electronic City" := d.electronicCity,
      "Whitefield" := d.whitefield,
      "Manyata Tech Park" := d.manyata,
      "Cubbon Park" := d.cubbonPark,
      "Koramangala" := d.koramangala
    ]
  }

  /** The if-chain that picks a location's reading out of a sample by name.
      A name that matches none of the first four falls through to the
      Koramangala reading. */
  function ReadingFor(d: Sample, name: string): (r: real)
    ensures name in SampleByName(d) ==> r == SampleByName(d)[name]
    ensures name !in SampleByName(d) ==> r == d.koramangala
  {
    if name == "Electronic City" then d.electronicCity
    else if name == "Whitefield" then d.whitefield
    else if name == "Manyata Tech Park" then d.manyata
    else if name == "Cubbon Park" then d.cubbonPark
    else d.koramangala
  }

  /** A location with a reading attached; every location field is kept. */
  function WithTemp(loc: Location, temp: real): HeatPoint {
    HeatPoint(loc.name, loc.x, loc.y, loc.kind, loc.lat, loc.lon, temp)
  }

  /** The `map` over a list of locations: one point per location, in order,
      each carrying the location's own fields and its reading from `d`. */
  function AttachReadings(locs: seq<Location>, d: Sample): (r: seq<HeatPoint>)
    ensures |r| == |locs|
    ensures forall i :: 0 <= i < |r| ==>
              r[i].name == locs[i].name && r[i].x == locs[i].x && r[i].y == locs[i].y &&
              r[i].kind == locs[i].kind && r[i].lat == locs[i].lat && r[i].lon == locs[i].lon
    ensures forall i :: 0 <= i < |r| ==> r[i].temp == ReadingFor(d, locs[i].name)
  {
    if locs == [] then []
    else [WithTemp(locs[0], ReadingFor(d, locs[0].name))] + AttachReadings(locs[1..], d)
  }

  /** The heat map of a frame: every plotted location with that frame's
      reading. Only frames of the timeline can be looked up. */
  function GenerateHeatMap(frame: nat): (r: seq<HeatPoint>)
    requires frame < |TemperatureData|
    ensures |r| == |Locations|
    ensures forall i :: 0 <= i < |r| ==>
              r[i].name == Locations[i].name && r[i].x == Locations[i].x && r[i].y == Locations[i].y &&
              r[i].kind == Locations[i].kind && r[i].lat == Locations[i].lat && r[i].lon == Locations[i].lon
    ensures forall i :: 0 <= i < |r| ==>
              Locations[i].name in SampleByName(TemperatureData[frame]) &&
              r[i].temp == SampleByName(TemperatureData[frame])[Locations[i].name]
  {
    var d := TemperatureData[frame];
    LocationNamesMatchSample(d);
    AttachReadings(Locations, d)
  }

  /** Every location name has its own field in every sample, and no two
      locations share a name: the name-to-field matching never misses and
      never reads one field for two places. */
  lemma LocationNamesMatchSample(d: Sample)
    ensures forall i :: 0 <= i < |Locations| ==> Locations[i].name in SampleByName(d)
    ensures forall i, j :: 0 <= i < j < |Locations| ==> Locations[i].name != Locations[j].name
    ensures |SampleByName(d)| == |Locations|
  {
  }

  /** In every frame the heat map shows, location by location, the sample
      field of that location; in particular the Koramangala fall-through is
      reached by Koramangala only. */
  lemma HeatMapFields(frame: nat)
    requires frame < |TemperatureData|
    ensures var r, d := GenerateHeatMap(frame), TemperatureData[frame];
            r[0].temp == d.electronicCity && r[1].temp == d.whitefield &&
            r[2].temp == d.manyata && r[3].temp == d.cubbonPark && r[4].temp == d.koramangala
  {
  }

  /** The urban heat island shown by the data: in every frame, every IT hub
      on the map reads hotter than the green-space location. */
  lemma HubsHotterThanGreenSpace(frame: nat, i: nat, j: nat)
    requires frame < |TemperatureData|
    requires i < |Locations| && j < |Locations|
    requires Locations[i].kind == It && Locations[j].kind == Green
    ensures GenerateHeatMap(frame)[i].temp > GenerateHeatMap(frame)[j].temp
  {
  }

  // ---------------------------------------------------------------------
  // Colour bands
  // ---------------------------------------------------------------------

  /** The five bands of the temperature legend, coolest first. */
  datatype Band = Cool | Moderate | Warm | Hot | Extreme

  /** Position of a band on the scale, 0 for the coolest. */
  function Rank(b: Band): (k: nat)
    ensures k < 5
  {
    match b
    case Cool => 0
    case Moderate => 1
    case Warm => 2
    case Hot => 3
    case Extreme => 4
  }

  const Bands: seq<Band> := [Cool, Moderate, Warm, Hot, Extreme]

  /** Lower bounds of Moderate, Warm, Hot and Extreme; each band is half-open,
      containing its lower bound and excluding the next one. */
  const Thresholds: seq<real> := [26.0, 30.0, 34.0, 37.0]

  /** The colour the legend shows for each band. */
  function BandColor(b: Band): string {
    match b
    case Cool => "#3b82f6"
    case Moderate => "#22c55e"
    case Warm => "#eab308"
    case Hot => "#f97316"
    case Extreme => "#ef4444"
  }

  /** The colour a reading is drawn in, as the threshold chain picks it. */
  function GetTempColor(temp: real): (c: string)
    ensures c == BandColor(Cool) <==> temp < 26.0
    ensures c == BandColor(Moderate) <==> 26.0 <= temp < 30.0
    ensures c == BandColor(Warm) <==> 30.0 <= temp < 34.0
    ensures c == BandColor(Hot) <==> 34.0 <= temp < 37.0
    ensures c == BandColor(Extreme) <==> 37.0 <= temp
  {
    if temp < 26.0 then "#3b82f6"
    else if temp < 30.0 then "#22c55e"
    else if temp < 34.0 then "#eab308"
    else if temp < 37.0 then "#f97316"
    else "#ef4444"
  }

  /** How many of the thresholds `t` has reached. */
  function CountReached(ths: seq<real>, t: real): (n: nat)
    ensures n <= |ths|
  {
    if ths == [] then 0
    else (if ths[0] <= t then 1 else 0) + CountReached(ths[1..], t)
  }

  /** Reference classification: the band of a reading is the one whose rank
      is the number of thresholds the reading has reached. */
  function TempBand(t: real): Band {
    Bands[CountReached(Thresholds, t)]
  }

  /** A higher reading reaches at least as many thresholds. */
  lemma {:induction false} CountReachedMonotone(ths: seq<real>, t1: real, t2: real)
    requires t1 <= t2
    ensures CountReached(ths, t1) <= CountReached(ths, t2)
  {
    if ths != [] {
      CountReachedMonotone(ths[1..], t1, t2);
    }
  }

  /** The threshold chain agrees with the legend: a reading's colour is the
      colour of the band its rank of reached thresholds names. */
  lemma TempColorMatchesLegend(t: real)
    ensures GetTempColor(t) == BandColor(TempBand(t))
  {
    var ths := Thresholds;
    assert ths[1..] == [30.0, 34.0, 37.0];
    assert ths[1..][1..] == [34.0, 37.0];
    assert ths[1..][1..][1..] == [37.0];
    assert ths[1..][1..][1..][1..] == [];
    var c3 := CountReached([37.0], t);
    var c2 := CountReached([34.0, 37.0], t);
    var c1 := CountReached([30.0, 34.0, 37.0], t);
    assert c3 == (if 37.0 <= t then 1 else 0);
    assert c2 == (if 34.0 <= t then 1 else 0) + c3;
    assert c1 == (if 30.0 <= t then 1 else 0) + c2;
    assert CountReached(ths, t) == (if 26.0 <= t then 1 else 0) + c1;
  }

  /** Classification is monotone: a higher reading never gets a cooler band. */
  lemma TempBandMonotone(t1: real, t2: real)
    requires t1 <= t2
    ensures Rank(TempBand(t1)) <= Rank(TempBand(t2))
  {
    CountReachedMonotone(Thresholds, t1, t2);
  }

  /** The same, stated on colours: from `t1 <= t2` the colour of `t2` is
      never of a cooler band than that of `t1`. */
  lemma TempColorMonotone(t1: real, t2: real, b1: Band, b2: Band)
    requires t1 <= t2
    requires GetTempColor(t1) == BandColor(b1) && GetTempColor(t2) == BandColor(b2)
    ensures Rank(b1) <= Rank(b2)
  {
  }

  /** The boundary readings: each threshold itself belongs to the warmer band. */
  lemma BoundaryReadings()
    ensures GetTempColor(25.9) == BandColor(Cool)
    ensures GetTempColor(26.0) == BandColor(Moderate) && GetTempColor(29.9) == BandColor(Moderate)
    ensures GetTempColor(30.0) == BandColor(Warm) && GetTempColor(33.9) == BandColor(Warm)
    ensures GetTempColor(34.0) == BandColor(Hot) && GetTempColor(36.9) == BandColor(Hot)
    ensures GetTempColor(37.0) == BandColor(Extreme)
  {
  }

  // ---------------------------------------------------------------------
  // Delta panel
  // ---------------------------------------------------------------------

  /** One row of the delta panel: an IT hub, its reading, and how much
      warmer it is than the baseline. */
  datatype DeltaRow = DeltaRow(name: string, temp: real, delta: real)

  /** The hubs listed in the delta panel, in display order. */
  const DeltaHubs: seq<string> := ["Whitefield", "Koramangala", "Electronic City", "Manyata Tech Park"]

  function Row(name: string, temp: real, baseline: real): DeltaRow {
    DeltaRow(name, temp, temp - baseline)
  }

  /** The delta panel of a sample: for each listed hub, its reading and that
      reading minus the Cubbon Park reading. */
  function DeltaPanel(d: Sample): (rows: seq<DeltaRow>)
    ensures |rows| == |DeltaHubs|
    ensures forall i :: 0 <= i < |rows| ==>
              rows[i].name == DeltaHubs[i] &&
              rows[i].temp == SampleByName(d)[DeltaHubs[i]] &&
              rows[i].delta == SampleByName(d)[DeltaHubs[i]] - SampleByName(d)[BaselineName]
  {
    [ Row("Whitefield", d.whitefield, d.cubbonPark),
      Row("Koramangala", d.koramangala, d.cubbonPark),
      Row("Electronic City", d.electronicCity, d.cubbonPark),
      Row("Manyata Tech Park", d.manyata, d.cubbonPark) ]
  }

  /** The panel lists exactly the IT-hub locations of the map, each once,
      and never the baseline. */
  lemma DeltaHubsAreTheItHubs()
    ensures forall i :: 0 <= i < |Locations| ==>
              (Locations[i].kind == It <==> Locations[i].name in DeltaHubs)
    ensures forall i :: 0 <= i < |Locations| ==>
              (Locations[i].kind == Green <==> Locations[i].name == BaselineName)
    ensures forall i, j :: 0 <= i < j < |DeltaHubs| ==> DeltaHubs[i] != DeltaHubs[j]
  {
  }

  /** Every delta the panel prints behind its fixed "+" sign is positive over
      the shipped table, so the sign is correct for this data. */
  lemma PlusSignHolds(frame: nat, i: nat)
    requires frame < |TemperatureData| && i < |DeltaHubs|
    ensures DeltaPanel(TemperatureData[frame])[i].delta > 0.0
  {
  }

  /** The "+" sign relies on the data: a sample with a hub cooler than the
      baseline gives that hub a negative delta. */
  lemma PlusSignNeedsWarmHubs(d: Sample)
    requires d.whitefield < d.cubbonPark
    ensures DeltaPanel(d)[0].delta < 0.0
  {
  }
}
