# Jal-Drishti water-safety core, modelled in Dafny

Jal-Drishti shows water-quality readings (TDS, total dissolved solids, in ppm)
on a dashboard and a heatmap of India. This project models the deterministic
logic behind those views and proves what it promises:

- the **trend pipeline** of the dashboard (`App`): the reading selection near
  the user, the trailing moving average, the status labels, the in-house
  estimate, and the alert state after an area analysis;
- the **advisory call** (`GeminiService`): the report summary in the prompt,
  the `"None"` default, and the fixed fallback assessment used when the model's
  reply does not parse;
- the two **threshold classifiers** (`Utils.GetWaterStatus`,
  `Dashboard.GetWaterQualityInfo`) and the dashboard's **20-point live
  history** (`Dashboard.DashboardState`);
- the **heatmap layer** (`HeatmapLayer`): radius and blur as functions of
  zoom, the fixed options, and the rule that at most one heat layer is on the
  map;
- the **sensor-drift tick** of the map page (`MapView`);
- the two **synthetic data generators** (`IndiaData` for `src/data.js`,
  `GenData` for `scripts/genData.mjs`).

Files: `wrappers.dfy` (Option, Result), `text.dfy` (decimal rendering and
`join`), `sorting.dfy` (the numeric-comparator sort), `random.dfy` (what a
`Math.random()` draw is), and one file per source
file: `app.dfy`, `gemini_service.dfy`, `utils.dfy`, `dashboard.dfy`,
`heatmap_layer.dfy`, `map_view.dfy`, `data.dfy`, `gen_data.dfy`.

Each piece of state the source changes in place is a class: the dashboard session
(`App.Session`), the live history (`Dashboard.DashboardState`), the heat layer
and its component (`HeatmapLayer.HeatLayer`, `HeatmapLayer.HeatmapLayerView`),
and the array the generators push onto (`IndiaData.PointCorpus`). The loops of
`smoothData` and the two generators are methods with loop invariants. Pure
expressions (classifiers, the fallback, the drift map, the selection) are
functions.

Foreign calls are parameters: the haversine distance (`App.Distance`), the
time key of a reading and its locale label, the language-model call and
`JSON.parse` (oracles), the geolocation result (an `Option<Position>`), the
reports request (an `Option` of the fetched list), and every `Math.random()`
draw (a real in [0, 1), `Random.IsDraw`).

What the code does that a reader might not expect:

- There are four separate threshold rules with different boundaries: `getStatusInfo`, `getWaterStatus`, `getWaterQualityInfo` and the fallback's 300/600 score.
- A reply that parses is returned unchanged (src/services/geminiService.ts:36). No field is validated or patched.
- A failed model call is not turned into the fallback. It escapes `analyzeWaterQuality`, because the call is outside its `try` (src/services/geminiService.ts:27-37). `fetchData` then catches and logs it (src/App.tsx:124-126), and the analysis, the notification and the modal stay as they were.

## Model

| member | source | states |
|---|---|---|
| Text.DecimalString | src/data.js:21 | the rendering of `${i}` is a non-empty string of decimal digits |
| Text.DecimalRoundTrip | src/data.js:21 | reading back the decimal rendering of `n` gives `n` |
| Text.DecimalStringInjective | src/data.js:21 | distinct indices give distinct labels |
| Text.JoinAppend | src/services/geminiService.ts:15 | joining one more part appends the separator and that part |
| Text.JoinStartsWithFirst | src/services/geminiService.ts:15 | a join of at least one part begins with the first part |
| Sorting.SortBy | src/App.tsx:140-142 | the sorted copy has the same elements (multiset) and ascending keys |
| Sorting.SortByStable | src/App.tsx:140-142 | the sort is stable: the elements with any one key come out in their input order, which decides which equally distant readings survive the cut to 50 |
| Sorting.PrefixIsSmallest | src/App.tsx:140-142 | the first k of a sorted sequence have keys no larger than any element left out |
| App.NearestRegionProperties | src/App.tsx:140-142 | the located view has min(50, n) corpus readings in time order, and no reading left out is closer to the user than one kept |
| App.FallbackRegionProperties | src/App.tsx:146-157 | without a position the view is exactly the first min(50, n) corpus readings, in time order |
| App.SmoothData | src/App.tsx:58-74 | one trend point per reading, in order, each keeping the reading and adding Round(mean tds of the trailing window) and its time label |
| App.SmoothedFirst | src/App.tsx:63-69 | the first point's smoothed value is the rounded first reading |
| App.SmoothedCausal | src/App.tsx:63-69 | a smoothed value depends only on readings up to its own index |
| App.SmoothedBounds | src/App.tsx:58-69 | readings in [lo, hi] smooth into [Round(lo), Round(hi)] |
| App.SmoothedNonNegative | src/App.tsx:58-69 | non-negative readings never smooth below 0 |
| App.SmoothedExample | src/App.tsx:58-69 | readings 100..500 with window 5 give 100 at index 0 and 300 at index 4 |
| App.GetStatusInfo | src/App.tsx:210-215 | Safe iff tds <= 150, Moderate iff 150 < tds <= 300, High Risk iff 300 < tds <= 500, Unsafe iff tds > 500 |
| App.GetStatusInfoMonotone | src/App.tsx:210-215 | a larger tds never gets a less severe label |
| App.HeatmapStatusAgrees | src/App.tsx:79-82 | the sector status rule (> 500 unsafe, > 300 warning, > 150 risk, else safe) draws the same lines as `getStatusInfo` |
| App.DummySector | src/App.tsx:77-90 | a dummy sector has tds in [100, 900), its status from the sector rule, and the name `Sector i+1` |
| App.SensorFeed | src/App.tsx:95-96 | the feed maps the given points (or, when none are given, the first ten corpus points) one-to-one to `{tds_value, lat, lng}` |
| App.CurrentTds | src/App.tsx:217 | the displayed reading is 0 without sensor data, else the first reading's tds |
| App.HouseTds | src/App.tsx:219 | the house estimate is at least 50; it is tds - 100 from 150 up and 50 below |
| App.HouseNeverWorse | src/App.tsx:217-220 | the house estimate's label is never more severe than the area reading's |
| App.AreaAnalysis | src/App.tsx:109-127 | no analysis exactly when there is no sensor data or the model call fails; otherwise the analysis is the result of `analyzeWaterQuality` on the first reading and the reports |
| App.StaleRefreshEmptiesFeed | src/App.tsx:160-163 | on the first login after the page loads, a refresh given the empty graph data installs an empty feed, shows 0 ppm and obtains no analysis |
| App.Session.constructor | src/App.tsx:36-45 | a new session has no data, no analysis, no notification, modal closed, loading |
| App.Session.ApplyAreaAnalysis | src/App.tsx:112-122 | the analysis is stored; a notification is set only for Risk or Unsafe and only if none is showing; an existing notification is never replaced; the modal opens only for Unsafe |
| App.Session.FetchData | src/App.tsx:92-133 | the sensor feed and reports (or []) are stored, loading ends; alert state changes exactly as `ApplyAreaAnalysis` when an analysis is obtained, and not at all otherwise |
| App.Session.InitializeLocation | src/App.tsx:135-158 | the graph is the smoothing of the local region (nearest or fallback), the feed is that region, the reports are the fetched ones, and the analysis, notification and modal follow that region's area analysis; the alert panel is unchanged |
| App.Session.RaiseContaminationAlert | src/App.tsx:166-172 | the timer's fixed warning replaces any notification and opens the alert panel; every other field is unchanged |
| App.Session.DismissCriticalModal | src/App.tsx:848 | the modal is closed; every other field is unchanged |
| App.Session.DismissNotification | src/App.tsx:433 | the notification is cleared; every other field is unchanged |
| App.Session.ToggleAlerts | src/App.tsx:413 | the alert panel's open flag is flipped; every other field is unchanged |
| GeminiService.ReportEntries | src/services/geminiService.ts:15 | one `issue_type: description` entry per report, in input order |
| GeminiService.ReportSummaryAppend | src/services/geminiService.ts:15 | the summary grows report by report with ", " between entries |
| GeminiService.ReportsClauseNone | src/services/geminiService.ts:15-18 | no reports give the empty summary, and the prompt says "None" exactly when there are no reports |
| GeminiService.FallbackScore | src/services/geminiService.ts:39 | Safe iff tds < 300, Risk iff 300 <= tds < 600, Unsafe iff tds >= 600 |
| GeminiService.FallbackAnalysis | src/services/geminiService.ts:38-45 | score from the 300/600 rule, recommendation in lockstep with the score, tds_level is the input, fixed explanation, side effects iff tds > 500, RO tips iff tds > 300 |
| GeminiService.FallbackComplete | src/services/geminiService.ts:39-44 | both fallback lists are never empty, the score is one of the three, and a higher tds never gets a milder score |
| GeminiService.FallbackBoundaries | src/services/geminiService.ts:39-44 | 300 is Risk with only the storage tip, 500 has no side effects, 600 is Unsafe |
| GeminiService.AnalyzeWaterQuality | src/services/geminiService.ts:14-47 | a failed call fails; otherwise a reply that parses is returned unchanged and one that does not gives the fallback for the same tds |
| GeminiService.AnalyzeOutcomes | src/services/geminiService.ts:35-37 | an empty or missing reply text is parsed as "{}" |
| Utils.GetWaterStatus | src/utils.js:1-9 | Safe iff tds < 150, Risk iff 150 <= tds < 300, Unsafe iff tds >= 300, each with its fixed action and colour |
| Utils.GetWaterStatusMonotone | src/utils.js:1-9 | a larger tds never gets a less severe status |
| Utils.GetWaterStatusPaired | src/utils.js:1-9 | status, action and colour always come as one of three fixed triples |
| Utils.GetWaterStatusBoundaries | src/utils.js:2-4 | 150 maps to Risk and 300 to Unsafe |
| Dashboard.GetWaterQualityInfo | src/frontend/src/components/Dashboard.jsx:8-14 | Excellent < 50 <= Good < 150 <= Fair < 300 <= Poor < 500 <= Unacceptable, each iff |
| Dashboard.GetWaterQualityInfoMonotone | src/frontend/src/components/Dashboard.jsx:8-14 | severity never decreases as tds grows |
| Dashboard.GetWaterQualityInfoBoundaries | src/frontend/src/components/Dashboard.jsx:9-13 | 50, 150, 300, 500 each fall in the tier above |
| Dashboard.DashboardState.constructor | src/frontend/src/components/Dashboard.jsx:17-19 | the dashboard starts at 0 ppm, empty history, disconnected |
| Dashboard.DashboardState.OnConnect | src/frontend/src/components/Dashboard.jsx:25-28 | connecting sets the flag and nothing else |
| Dashboard.DashboardState.OnDisconnect | src/frontend/src/components/Dashboard.jsx:30-33 | disconnecting clears the flag and nothing else |
| Dashboard.DashboardState.OnTdsUpdate | src/frontend/src/components/Dashboard.jsx:35-48 | the shown value is the update's tds; the new point is last; the history is the last min(n+1, 20) of old history plus the point, so below 20 it only grows by one and at 20 only the oldest is dropped |
| HeatmapLayer.Radius | src/HeatmapLayer.jsx:21 | the radius is at least 12 and at least 2 * zoom, and equals one of them |
| HeatmapLayer.Blur | src/HeatmapLayer.jsx:22 | the blur is at least 15 and at least 2.5 * zoom, and equals one of them |
| HeatmapLayer.FloorsActive | src/HeatmapLayer.jsx:21-22 | both floors are in force exactly for zoom <= 6 |
| HeatmapLayer.RadiusBlurMonotone | src/HeatmapLayer.jsx:21-22 | radius and blur never shrink as zoom grows |
| HeatmapLayer.RadiusBlurExamples | src/HeatmapLayer.jsx:21-22 | zoom 5 gives 12 and 15; zoom 10 gives 20 and 25 |
| HeatmapLayer.HeatPoints | src/HeatmapLayer.jsx:16 | each reading becomes `[lat, lng, tds]`, same length and order |
| HeatmapLayer.GradientWellFormed | src/HeatmapLayer.jsx:31-36 | the gradient stops ascend strictly inside (0, 1) and end at red |
| HeatmapLayer.HeatLayer.constructor | src/HeatmapLayer.jsx:25-37 | a new layer carries its points, radius and blur, max 800, minOpacity 0.15, maxZoom 10 and the gradient |
| HeatmapLayer.HeatLayer.SetOptions | src/HeatmapLayer.jsx:67-70 | `setOptions` replaces radius and blur |
| HeatmapLayer.HeatmapLayerView.constructor | src/HeatmapLayer.jsx:7 | the component starts with no layer referenced or attached |
| HeatmapLayer.HeatmapLayerView.Rebuild | src/HeatmapLayer.jsx:13-47 | after a rebuild exactly one heat layer, the new one, is on the map, with the data's points and the zoom's radius and blur; nothing changes when the plugin is missing |
| HeatmapLayer.HeatmapLayerView.Cleanup | src/HeatmapLayer.jsx:49-53 | cleanup leaves no heat layer on the map and keeps the reference |
| HeatmapLayer.HeatmapLayerView.OnZoom | src/HeatmapLayer.jsx:58-71 | after a zoom the referenced layer has the same radius and blur a rebuild at that zoom gives |
| MapView.Drift | src/MapView.jsx:29 | the drift step lies in [-25, 24] |
| MapView.DriftTds | src/MapView.jsx:29 | the new tds is tds + step when that is not negative and 0 otherwise, and is at most tds + 24 |
| MapView.Tick | src/MapView.jsx:25-30 | a tick keeps length, order and every field but tds, and drifts each tds |
| MapView.TicksInvariant | src/MapView.jsx:24-32 | after k ticks each point has only its tds changed, never negative and at most its start + 24k |
| MapView.MarkerPosition | src/MapView.jsx:47-48 | the marker is shown iff an analysis exists and the data is non-empty, at the first point |
| IndiaData.RawClusterTdsRange | src/data.js:17 | an unclamped cluster tds lies in [base - variance/2, base + variance/2) |
| IndiaData.ClampTds | src/data.js:24 | the clamped tds lies in [0, 600] and is unchanged when already inside |
| IndiaData.BackgroundPointRange | src/data.js:70-79 | background points have lat in [8, 35), lng in [68, 97) and tds in [0, 250) |
| IndiaData.PointCorpus.constructor | src/data.js:3 | the array starts empty, so every record has the next id and a tds in [0, 600] |
| IndiaData.PointCorpus.GenerateCluster | src/data.js:7-27 | a cluster appends exactly numPoints records labelled "name i", with the next ids and tds in [0, 600], leaving earlier records alone |
| IndiaData.PointCorpus.AddBackground | src/data.js:69-81 | the background loop appends exactly 800 records with the next ids and tds in [0, 250), leaving earlier records alone and keeping every tds in [0, 600] |
| IndiaData.GenerateIndiaData | src/data.js:2-84 | the corpus has 6100 records, ids 1..6100, every tds in [0, 600] |
| GenData.ScaledFloor | scripts/genData.mjs:30-33 | `Math.floor(u * n)` lies in [0, n) |
| GenData.GeneratedRanges | scripts/genData.mjs:29-49 | a record has id i + 1, tds in [150, 900], temperature in [15, 38], turbidity in [0.5, 10] and a listed city name |
| GenData.GenerateReadings | scripts/genData.mjs:26-50 | the loop produces exactly 1000 records, record i built from draw i with id i + 1 and timestamp start + i * 10 min |
| GenData.GeneratedFileProperties | scripts/genData.mjs:29-50 | the 1000 records have ids i + 1, bounded tds and temperature, listed cities, and strictly increasing timestamps |

## Left out

- `server.ts` and `src/backend/server.js`: HTTP routes, SQLite and socket broadcast are I/O. They are not part of this model.
- `src/script.js`, `src/frontend/src/App.jsx` and all JSX markup and animation are presentation only.
- The haversine `getDistance` (src/App.tsx:48-55) is floating-point trigonometry. It is the parameter `App.Distance`.
- `Math.random`, `Date`, `toLocaleTimeString`, `toISOString`, `navigator.geolocation`, `fetch` and `fs.writeFileSync` are foreign. They are parameters.
- Timers and effects (the 30-second refresh, the 60-second alert timer, the 5-second drift interval, `zoomend` wiring) are concurrency. The timers themselves are not modelled. What each callback does to the state is modelled, with the arguments it is given as parameters.
- The 30-second refresh is not modelled as a repeated call. Its callback (src/App.tsx:160-163) passes the `graphData` captured when the user logged in. On the first login after the page loads, `graphData` is `[]`, which is truthy, so `fetchData` installs an empty feed and the dashboard shows 0 ppm. App.StaleRefreshEmptiesFeed states this for `FetchData(Some([]), …)`. Logout (src/App.tsx:448) does not clear `graphData`, so after a logout and a new login the refresh keeps re-fetching the previous session's region: `FetchData(Some(oldRegion), …)`, where `oldRegion` is the readings of that earlier trend.
- The interleaving of asynchronous promises is not modelled. Each callback runs to completion.
- Floating-point arithmetic is not modelled. Reals are exact, so `toFixed` is exact round-half-up (`GenData.RoundTo`) and `Math.round` is `Floor(x + 0.5)`.
- The `cos`/`sin`/`sqrt` offsets in src/data.js:10-15 are not computed. Each draw gives its offsets directly, so `generateCluster`'s `radius` argument does not appear.
- The records of src/data.js have no `timestamp`. Sorting them by time compares NaN. The model sorts by an abstract key `timeOf`, so that NaN behaviour is not represented.
- The prompt's fixed instruction text is not modelled. The model oracle receives the two parts the prompt varies in: tds and the report clause.
- A parsed reply is modelled as a `WaterAnalysis` with string fields. A reply lacking fields or of another shape cannot be expressed, because the parse oracle returns only complete records. In particular, an empty reply defaults to `"{}"` (src/services/geminiService.ts:36), which parses to an object with no fields. src/App.tsx:112 stores that object as the analysis, and rendering it then calls `side_effects.map` on `undefined` (src/App.tsx:634, src/MapView.jsx:56), which throws.
- App.SmoothData: requires `windowSize >= 1`. Every caller uses the default 5; a window of 0 would divide by zero.
- App.CurrentTds: does not model `|| 0` turning a NaN reading into 0.
- GenData.GeneratedRanges: states no bound on lat and lng after `toFixed(6)`.
- The dummy heatmap array (src/App.tsx:77-90) is modelled one sector at a time by `App.DummySector`, not as the 24-element array.
- Login, tabs, report submission and `simulateSensor` are UI and network actions. They are not modelled.
