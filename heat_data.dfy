/** The constant tables of the Bangalore heat visualization: the four-frame
    timeline with its per-frame temperature samples, and the five plotted
    locations. Nothing here changes at run time. Temperatures are degrees
    Celsius, kept exact as `real`. */
module HeatData {

  /** Length of the timeline; also the modulus of the playback wrap-around. */
  const FrameCount: nat := 4

  /** One frame's readings: one field per location, plus the displayed
      city average and a provenance label. */
  datatype Sample = Sample(
    electronicCity: real,
    whitefield: real,
    manyata: real,
    cubbonPark: real,
    koramangala: real,
    cityAverage: real,
    dataSource: string)

  /** The category of a location: an IT hub or the green-space baseline. */
  datatype LocationKind = It | Green

  /** A plotted location: display name, position on the map in percent,
      category and geographic coordinate. */
  datatype Location = Location(
    name: string,
    x: int,
    y: int,
    kind: LocationKind,
    lat: real,
    lon: real)

  /** Display labels of the timeline, one per frame. */
  const Times: seq<string> := ["06:00 AM", "10:30 AM", "01:30 PM", "10:00 PM"]
  const UtcTimes: seq<string> := ["00:30 UTC", "05:00 UTC", "08:00 UTC", "16:30 UTC"]
  const TimeDescriptions: seq<string> := [
    "Pre-dawn: City awakening, minimal solar heating",
    "Terra Overpass: Morning acquisition showing rapid temperature rise",
    "Afternoon Peak: Maximum urban heat island effect visible",
    "Night: Retained heat in concrete zones vs. cooling in green spaces"
  ]

  /** The temperature sample of each frame, in timeline order. */
  const TemperatureData: seq<Sample> := [
    Sample(26.5, 25.8, 26.2, 24.5, 26.8, 26.0, "MODIS Night LST"),
    Sample(33.2, 33.8, 33.0, 30.5, 34.0, 32.9, "Terra MODIS Overpass"),
    Sample(37.8, 38.5, 37.2, 34.2, 38.2, 37.2, "MODIS Day LST (Peak)"),
    Sample(30.5, 31.2, 30.8, 28.5, 31.5, 30.5, "MODIS Night LST")
  ]

  /** The five plotted locations, in the order they are drawn. */
  const Locations: seq<Location> := [
    Location("Electronic City", 50, 75, It, 12.8396, 77.6760),
    Location("Whitefield", 80, 45, It, 12.9698, 77.7500),
    Location("Manyata Tech Park", 55, 20, It, 13.0358, 77.6214),
    Location("Cubbon Park", 45, 50, Green, 12.9716, 77.5946),
    Location("Koramangala", 60, 60, It, 12.9352, 77.6245)
  ]

  /** The name of the green-space location every delta is measured against. */
  const BaselineName: string := "Cubbon Park"

  /** Sum of a sample's five location readings. */
  function ReadingSum(d: Sample): real {
    d.electronicCity + d.whitefield + d.manyata + d.cubbonPark + d.koramangala
  }

  /** The label tables and the sample table index together: each has exactly
      one entry per frame. */
  lemma TimelineTablesAgree()
    ensures |Times| == |UtcTimes| == |TimeDescriptions| == |TemperatureData| == FrameCount
  {
  }

  /** The displayed city average of every frame is the mean of that frame's
      five readings, rounded to one decimal: it lies within 0.05 of the mean. */
  lemma CityAverageIsRoundedMean(frame: nat)
    requires frame < |TemperatureData|
    ensures var d := TemperatureData[frame];
            -0.25 <= 5.0 * d.cityAverage - ReadingSum(d) <= 0.25
  {
  }
}
