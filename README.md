# Bangalore heat visualization: frame state and derived view

This project models the behaviour of the `BangaloreHeatVisualization` React
component. The component plays a four-frame slideshow of fixed land-surface
temperature readings for five places in Bangalore. It colours each reading
against a five-band scale and lists how much warmer each IT hub is than the
Cubbon Park green space. Two pieces of logic are modelled.

- **Frame store and animation driver** (`playback.dfy`, module `Playback`).
  The component has two state fields: `currentFrame`, an index into the
  four-entry timeline, and `isPlaying`. Four events change them: a firing of
  the playback interval, the play/pause button, the reset button and the
  timeline selector. The transitions are stated as pure functions on an
  abstract `PlayState` (`Step`, and `Run` over a sequence of events). The
  component is the class `Visualization`, with the two fields updated in
  place. Each method of the class is proved to follow `Step`.
- **Derived frame view** (`frame_view.dfy`, module `FrameView`, over the
  constant tables in `heat_data.dfy`, module `HeatData`). This covers
  `generateHeatMap`, which attaches each location's reading by name through an
  if-chain, and `getTempColor`, the five-band threshold classifier. It also
  covers the delta panel, which shows each IT hub's reading minus the Cubbon
  Park reading.

Temperatures are decimal literals that the component only compares and
subtracts. The model takes each reading as the exact decimal value of its
literal, as a `real`. The program stores the nearest double instead, so a delta
it computes can differ from the decimal difference in the last digits (see
"## Left out"). A timer firing is an
abstract event `TimerFired`. In the component the interval exists only while
playing. The model therefore lets a firing advance the frame only while
playing, and a firing while paused changes nothing.

Independent reference definitions check the if-chains:

- `SampleByName` is a map from location name to sample field. `ReadingFor` is
  proved to agree with it on the five names and to fall through to Koramangala
  otherwise.
- `TempBand` classifies a reading by how many of the thresholds 26, 30, 34 and
  37 it reaches. `GetTempColor` is proved to pick that band's legend colour.

Two details of the code are worth stating:

- The location categories are the strings `'it'` and `'green'`
  (src/BangaloreHeatVisualization.js:79-83).
- A reading of exactly 37 is extreme (red). The code tests `temp < 37`, though
  the legend label reads ">37°C" (src/BangaloreHeatVisualization.js:131, 309).

## Model

| member | source | states |
|---|---|---|
| HeatData.TimelineTablesAgree | src/BangaloreHeatVisualization.js:20-75 | the three label tables and the sample table each have exactly four entries, one per frame |
| HeatData.CityAverageIsRoundedMean | src/BangaloreHeatVisualization.js:38-75 | each frame's displayed city average is within 0.05 of the mean of its five readings |
| FrameView.ReadingFor | src/BangaloreHeatVisualization.js:117-122 | the name if-chain returns the reading the name-to-field map gives for each of the five names, and the Koramangala reading for any other name |
| FrameView.AttachReadings | src/BangaloreHeatVisualization.js:116-124 | the map over locations gives one entry per location in order, keeps name, x, y, type, lat and lon, and adds the reading looked up by name |
| FrameView.GenerateHeatMap | src/BangaloreHeatVisualization.js:114-125 | for a timeline frame, exactly one entry per location in order, location fields unchanged, temp equal to the frame sample's field for that name |
| FrameView.LocationNamesMatchSample | src/BangaloreHeatVisualization.js:78-84 | every location name has its own sample field, no two locations share a name, and there are as many fields as locations |
| FrameView.HeatMapFields | src/BangaloreHeatVisualization.js:118-122 | in every frame the five map entries read electronicCity, whitefield, manyata, cubbonPark and koramangala in that order, so the fall-through is reached only by Koramangala |
| FrameView.HubsHotterThanGreenSpace | src/BangaloreHeatVisualization.js:38-84 | in every frame every IT hub on the map reads strictly hotter than the green-space location |
| FrameView.GetTempColor | src/BangaloreHeatVisualization.js:127-133 | blue exactly below 26, green exactly on [26,30), yellow on [30,34), orange on [34,37), red exactly from 37 |
| FrameView.CountReachedMonotone | src/BangaloreHeatVisualization.js:127-133 | a higher reading reaches at least as many thresholds |
| FrameView.TempColorMatchesLegend | src/BangaloreHeatVisualization.js:304-309 | the colour of every reading is the legend colour of the band ranked by the number of thresholds it reaches |
| FrameView.TempBandMonotone | src/BangaloreHeatVisualization.js:127-133 | a higher reading never gets a cooler band |
| FrameView.TempColorMonotone | src/BangaloreHeatVisualization.js:127-133 | if t1 <= t2, the band of t2's colour ranks at least as high as the band of t1's colour |
| FrameView.BoundaryReadings | src/BangaloreHeatVisualization.js:127-133 | 25.9 is cool; 26.0 and 29.9 moderate; 30.0 and 33.9 warm; 34.0 and 36.9 hot; 37.0 extreme |
| FrameView.DeltaPanel | src/BangaloreHeatVisualization.js:432-438 | four rows in display order, each with the hub's reading looked up by name and that reading minus the Cubbon Park reading |
| FrameView.DeltaHubsAreTheItHubs | src/BangaloreHeatVisualization.js:432-437 | the panel lists exactly the locations of type it, each once, and the only green location is the baseline |
| FrameView.PlusSignHolds | src/BangaloreHeatVisualization.js:438-443 | over the shipped table every delta is positive, so the fixed "+" prefix is correct for this data |
| FrameView.PlusSignNeedsWarmHubs | src/BangaloreHeatVisualization.js:438-443 | with a hub cooler than the baseline the delta is negative, so the "+" prefix depends on the data |
| Playback.NextFrame | src/BangaloreHeatVisualization.js:139 | the advanced frame is in [0,4), is the next frame before the last, and wraps from 3 to 0 |
| Playback.RunAppend | src/BangaloreHeatVisualization.js:135-143 | handling two event sequences in turn is handling their concatenation |
| Playback.Step | src/BangaloreHeatVisualization.js:139-348 | a firing advances the frame only while playing and never changes the flag; toggle flips the flag and keeps the frame; reset gives frame 0, not playing; selecting i gives frame i, not playing; only toggle starts playback; an offered event keeps the frame in [0,4) |
| Playback.Run | src/BangaloreHeatVisualization.js:135-348 | events are applied in order: no events change nothing, a sequence ending in reset ends at frame 0 not playing, one ending in a selection ends at that frame not playing, and offered events keep the frame in [0,4) |
| Playback.TicksAdvanceModulo | src/BangaloreHeatVisualization.js:135-143 | n firings while playing advance the frame to (frame + n) mod 4; while paused they change nothing |
| Playback.FourTicksAreIdentity | src/BangaloreHeatVisualization.js:139 | four firings return to the starting state |
| Playback.ResetForgetsHistory | src/BangaloreHeatVisualization.js:335 | after any history, reset yields frame 0 and not playing |
| Playback.NoTickAfterReset | src/BangaloreHeatVisualization.js:135-143 | after a reset, no number of firings changes the state |
| Playback.SelectionHolds | src/BangaloreHeatVisualization.js:345-348 | selecting entry i yields frame exactly i and not playing from any state, and later firings leave it so |
| Playback.ToggleTwiceRestores | src/BangaloreHeatVisualization.js:328 | pressing play/pause twice restores the state |
| Playback.PlaybackSession | src/BangaloreHeatVisualization.js:135-143 | play then three firings reach frame 3, a fourth wraps to 0, and pausing at 3 stays at 3 through any firings |
| Playback.Visualization.constructor | src/BangaloreHeatVisualization.js:5-6 | on mount the frame is 0 and playback is off |
| Playback.Visualization.Tick | src/BangaloreHeatVisualization.js:138-140 | while playing the frame advances by one and wraps from 3 to 0; while paused nothing changes; the flag never changes |
| Playback.Visualization.TogglePlay | src/BangaloreHeatVisualization.js:328 | flips the playing flag and leaves the frame unchanged |
| Playback.Visualization.Reset | src/BangaloreHeatVisualization.js:335 | sets frame 0 and not playing from every state |
| Playback.Visualization.SelectFrame | src/BangaloreHeatVisualization.js:345-348 | sets the frame to the chosen timeline entry and stops playback |
| Playback.Visualization.CurrentLocations | src/BangaloreHeatVisualization.js:145-146 | the current frame's sample lookup never misses, and each drawn location carries its own reading from it |

## Left out

- Rendering: JSX markup, styling classes, icons, the map grid and the legend markup are presentation only. The legend's colours are kept as `BandColor`.
- Real timing: `setInterval`/`clearInterval`, the 2500 ms period and the effect's mount and cleanup belong to the UI runtime. Each firing is the event `TimerFired`, which acts only while playing. The clearing of the interval on pause or reset appears as firings having no effect while paused.
- Number formatting: the `toFixed` formatting of temperatures, coordinates and the city average is number-to-string conversion of floating-point values and affects display only. The "+" prefix of the delta panel is modelled by the lemmas on the sign of the delta.
- The data-sources panel and its toggle, the data-source list, the satellite configuration (including its `peakTemp` label) and the bounding box are only displayed or linked.
- The label tables `times`, `utcTimes` and `timeDescriptions` are kept only as constants, for their length and as the selector's range.
- DeltaPanel: the readings are the exact decimal values of the literals. The program subtracts the nearest doubles, so a delta it computes differs from the model's by less than 1e-14 (25.8 − 24.5 gives 1.3000000000000007). The signs of the deltas and every comparison with the thresholds 26, 30, 34 and 37 are the same either way, and `toFixed(1)` hides the difference.
