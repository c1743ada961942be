# Satellite constellation visualizer: a verified model of its core

The satellite constellation visualizer is a browser dashboard. It draws a 3D globe with mock
satellites of five constellations (GPS, Starlink, SBIRS, WGS and NRO) and eight ground
stations. Three communication links exist as data; they are only counted on the dashboard,
never drawn.
The repository also has a client that loads real orbits from CelesTrak as NORAD Two-Line
Element (TLE) sets. `App.tsx` does not import or call that client, so the dashboard always
shows the mock data. This project models the parts of it that hold logic, and proves what
they promise:

- **CelesTrak client** (`CelestrakApi`). It splits a TLE feed into three-line records and
  reads the fixed-column fields of a record. It derives the period, altitude and orbit class.
  It keeps the one-hour cache in front of the network, for one group and for a batch of
  groups.
- **Application state** (`App`). It tracks which constellations are visible and which one is
  focused. It also tracks the selected satellite and whether the constellation panel is open.
- **Mock data** (`SatelliteData`). This covers the constellation table, the 98-satellite
  generator, the station and link tables, and the dashboard counts.
- **Scene** (`Scene`). It keeps the satellites of the visible constellations and marks the
  selected one.
- **Globe colours** (`Earth`). `adjustColor` shifts each channel of a `#rrggbb` colour and
  clamps it.

The supporting modules are:

- `Wrappers`: `Option`.
- `Sequences`: filter, count, subsequence and block facts.
- `JsText`: the JavaScript string built-ins the code relies on. These are `trim`,
  `split('\n')`, `substring`, `substr`, `charAt`, `replace('#', '')`, `padStart`, `String(n)`
  and `parseInt(s, 16)`, each with its edge cases.
- `Types`: the shared record shapes.

Modelling choices:

- **Stateful code is a class.**
  - `CelesTrakService` keeps its cache in a `map` field.
  - `AppState` holds the React state. The setters are its methods.
  - Each method is specified by a pure function of the old state: `FetchStepOf`, `FetchBatch`,
    `Toggled`, `VisibleAfterSelect` and `PanelChoice`.
- **Loops are methods with loop invariants.**
  - `parseTLEText` walks the lines three at a time.
  - `fetchMultipleConstellations` walks the groups.
  - `generateSatellites` is five loops that share one list, one id counter and one stream of
    random draws. `GenerateSatellites` calls one method per loop, and each method is proved
    against the specification `Generated`.
- **Outside effects are inputs.**
  - `Math.random()` is a function `random: nat -> real`. Call number k returns `random(k)`, and
    the generator reads the draws in the order the source's object literals evaluate them.
  - A fetch is a `FetchAttempt`. It holds the clock reading at the cache check, the HTTP
    outcome, and the clock reading when the result is stored.
  - Decimal `parseInt`/`parseFloat` are parameters that return `None` for `NaN`.

## Model

| member | source | states |
|---|---|---|
| CelestrakApi.GroupId | src/services/celestrakApi.ts:31-48 | each constellation group's GROUP parameter, the table's value, is non-empty and made of letters and '-' only, so it goes into the request URL unescaped; `GroupIdInjective` shows no two groups share it |
| CelestrakApi.GroupIdInjective | src/services/celestrakApi.ts:31-48 | no two constellation groups share a GROUP parameter, so no two share a cache key |
| CelestrakApi.NoradId | src/services/celestrakApi.ts:122 | the catalogue number is columns 3-7 of line 1 with surrounding whitespace trimmed (columns 3 to the end on a line of 3-6 characters, empty on a line of 2 or fewer); it is at most 5 characters and trimmed |
| CelestrakApi.TleGroupsLayout | src/services/celestrakApi.ts:111-125 | n lines give n / 3 records; record k is built from lines 3k, 3k+1 and 3k+2; one or two trailing lines are dropped |
| CelestrakApi.ParseTleText | src/services/celestrakApi.ts:110-128 | the loop returns exactly the three-line grouping of the trimmed feed's lines |
| CelestrakApi.ParseRenderRoundTrip | src/services/celestrakApi.ts:110-128 | writing well-formed records as a feed (3 trimmed lines each) and parsing it back gives the same records |
| CelestrakApi.ParseTleDetails | src/services/celestrakApi.ts:131-151 | name, catalogue number and both lines are copied through; the classification is at most one character |
| CelestrakApi.FullWidthColumns | src/services/celestrakApi.ts:138-147 | on full-width lines every field is the parse of exactly its TLE columns, and the eccentricity is read behind an implied "0." |
| CelestrakApi.ShortLine2 | src/services/celestrakApi.ts:146-147 | lines are not length-checked: on a line 2 of at most 52 characters, mean motion and revolution number are parses of "" |
| CelestrakApi.DetailsDependOnLines | src/services/celestrakApi.ts:131-151 | rebuilding a record from its own trimmed lines changes only the name and the catalogue number |
| CelestrakApi.EccentricityInUnitInterval | src/services/celestrakApi.ts:143 | when the 7 eccentricity columns hold digits, the eccentricity lies in [0, 1) |
| CelestrakApi.OrbitalPeriod | src/services/celestrakApi.ts:154-158 | the period exists exactly when the mean motion is non-zero; period × mean motion = 1440; a positive mean motion gives a positive period |
| CelestrakApi.EstimateAltitude | src/services/celestrakApi.ts:161-175 | the altitude is never negative; it is either 0 or the semi-major axis less 6371 km, and never below the latter |
| CelestrakApi.GetOrbitType | src/services/celestrakApi.ts:178-183 | LEO iff below 2000 km, MEO iff in [2000, 35786), GEO iff in [35786, 35800], HEO iff above 35800; every altitude gets exactly one class |
| CelestrakApi.FetchStepOf | src/services/celestrakApi.ts:57-88 | no request is made iff the group's entry is younger than one hour, and then the cached data is returned unchanged; otherwise a bad status or a network error fails the fetch and leaves the cache alone; a good response stores the parsed body, stamped with the clock at completion; other keys are never touched |
| CelestrakApi.RefetchWithinWindow | src/services/celestrakApi.ts:62-81 | fetching a group again within an hour of a successful fetch returns the same records without a request |
| CelestrakApi.BatchKeys | src/services/celestrakApi.ts:91-107 | the result map has exactly the requested groups as keys |
| CelestrakApi.BatchLeavesOthers | src/services/celestrakApi.ts:91-107 | cache entries of groups that were not requested are unchanged |
| CelestrakApi.BatchLastRequest | src/services/celestrakApi.ts:94-103 | a group's result is the payload of its last request in the list ([] on failure), made against the cache as it stood at that request |
| CelestrakApi.BatchOfDistinctGroups | src/services/celestrakApi.ts:94-103 | for distinct groups, each result is what a lone fetch of that group from the starting cache gives, so the groups do not interfere |
| CelestrakApi.BatchSize | src/services/celestrakApi.ts:91-107 | distinct groups give exactly as many results as groups |
| CelestrakApi.CelesTrakService.constructor | src/services/celestrakApi.ts:52-54 | the cache starts empty |
| CelestrakApi.CelesTrakService.FetchConstellation | src/services/celestrakApi.ts:57-88 | the new cache, the result and whether a request was made are exactly those of `FetchStepOf` |
| CelestrakApi.CelesTrakService.FetchMultipleConstellations | src/services/celestrakApi.ts:91-107 | the new cache and the result map are those of the batch fold `FetchBatch` |
| CelestrakApi.CelesTrakService.ClearCache | src/services/celestrakApi.ts:186-188 | the cache is empty afterwards |
| JsText.Trim | src/services/celestrakApi.ts:111 | the result is trimmed and is the part of the input that lies between its leading and trailing whitespace |
| JsText.TrimIdempotent | src/services/celestrakApi.ts:117-119 | trimming a trimmed line changes nothing |
| JsText.SplitJoin | src/services/celestrakApi.ts:111 | splitting lines joined by line feeds gives the lines back |
| JsText.JoinSplit | src/services/celestrakApi.ts:111 | joining the pieces of a split with line feeds gives the text back |
| JsText.Substring | src/services/celestrakApi.ts:122 | `substring` clamps both ends to the string and never fails; in range it is the slice, with bounds in either order; past the end it is empty |
| JsText.CharAt | src/services/celestrakApi.ts:138 | `charAt` gives one character in range and "" outside it |
| JsText.Substr | src/components/Earth.tsx:410-412 | `substr` gives at most `length` characters; in range it is the slice, cut short at the end of the string, and empty from a start at or past the end |
| JsText.RemoveFirst | src/components/Earth.tsx:409 | `replace('#', '')` leaves a string without '#' unchanged; otherwise it removes exactly the first '#', at the index before which no '#' occurs, and keeps everything before and after it |
| JsText.ParseIntRadix16 | src/components/Earth.tsx:410-412 | `parseInt(s, 16)`: a non-empty run of hexadecimal digits reads as its value; the empty string, and text starting with anything other than whitespace, a sign or a hexadecimal digit, give NaN; `ParseHexPair` bounds two digits below 256 |
| JsText.ParseHexPair | src/components/Earth.tsx:410-412 | `parseInt` of two hexadecimal digits in base 16 is their value, below 256 |
| JsText.PaddedDecimalShape | src/data/satellites.ts:61 | `String(n).padStart(width, '0')` is the decimal digits of n left-filled with '0' to `width`, has length max(width, digits), holds only digits and reads back as n |
| JsText.PaddedDecimalValue | src/data/satellites.ts:61 | a zero-padded decimal still reads as the same number |
| Sequences.Filter | src/components/Scene.tsx:28-30 | `filter` keeps exactly the elements that pass, as an order-preserving subsequence, as many as `Count` finds |
| Sequences.FilterMultiset | src/App.tsx:21 | `filter` keeps every occurrence of each element that passes and none of the others |
| Sequences.FilterAll | src/components/Scene.tsx:28-30 | a filter that every element passes returns the input |
| Sequences.Count | src/data/satellites.ts:277-279 | `filter(...).length` is at most the length; it is 0 iff no element passes and the full length iff all pass |
| SatelliteData.ConstellationIds | src/App.tsx:12-14 | `constellations.map(c => c.id)` has one id per entry, in table order |
| SatelliteData.OrbitTypeOf | src/data/satellites.ts:3-49 | a lookup finds an orbit type iff some entry has the id; the type found is that of the first such entry |
| SatelliteData.ConstellationTable | src/data/satellites.ts:3-49 | the table holds gps, starlink, sbirs, wgs and nro, in that order |
| SatelliteData.ConstellationIdsDistinct | src/data/satellites.ts:3-49 | no two table entries share an id |
| SatelliteData.SatelliteIdInjective | src/data/satellites.ts:61 | different counter values give different `SAT-nnnn` identifiers, however many digits they need |
| SatelliteData.SatelliteId | src/data/satellites.ts:61 | an identifier has at least eight characters; `SatelliteIdFormat` spells it out as `SAT-` and the zero-filled counter, `SatelliteIdInjective` shows different counters give different identifiers, and `SatelliteIdRange` gives the first and last ones |
| SatelliteData.SatelliteIdFormat | src/data/satellites.ts:61 | every identifier is `SAT-` followed by the counter in decimal, left-filled with '0' to four digits (longer numbers are kept whole); the digits read back as the counter |
| SatelliteData.SatelliteIdRange | src/data/satellites.ts:61 | the first identifier is SAT-0001 and the 98th is SAT-0098 |
| SatelliteData.GenerateSatellites | src/data/satellites.ts:52-171 | the generator returns exactly `Generated(random)`: the five blocks in order, numbered by one counter, each satellite built from the draws after its predecessor's |
| SatelliteData.AddGps | src/data/satellites.ts:57-78 | the GPS loop appends 24 satellites with ids 1-24 and consumes five draws each |
| SatelliteData.AddStarlink | src/data/satellites.ts:81-100 | the Starlink loop appends 50 satellites with ids 25-74; each takes one or two status draws and four more |
| SatelliteData.StarlinkCursorStep | src/data/satellites.ts:91-95 | each Starlink satellite moves the draw position past its status draws and four more |
| SatelliteData.AddSbirs | src/data/satellites.ts:103-123 | the SBIRS loop appends 6 satellites with ids 75-80 and consumes two draws each |
| SatelliteData.AddWgs | src/data/satellites.ts:126-146 | the WGS loop appends 10 satellites with ids 81-90 and consumes two draws each |
| SatelliteData.AddNro | src/data/satellites.ts:149-168 | the NRO loop appends 8 satellites with ids 91-98 and consumes eight draws each |
| SatelliteData.GeneratedIds | src/data/satellites.ts:52-171 | 98 satellites; the one at position k has id SAT-(k+1) |
| SatelliteData.GeneratedIdsDistinct | src/data/satellites.ts:52-171 | the 98 identifiers are pairwise different |
| SatelliteData.GeneratedBlocks | src/data/satellites.ts:52-171 | positions 0-23 are GPS (MEO), 24-73 Starlink (LEO), 74-79 SBIRS (GEO), 80-89 WGS (GEO) and 90-97 NRO (LEO) |
| SatelliteData.GeneratedOrbitTypes | src/data/satellites.ts:3-171 | every generated satellite has the orbit type that its constellation's table entry declares |
| SatelliteData.GpsPlanes | src/data/satellites.ts:57-78 | GPS satellite i is in plane i / 4 (0-5) and slot i % 4 (0-3); its longitude is within 10 degrees past its slot's base and its latitude within ±55; it is operational iff its first draw exceeds 0.1, and degraded otherwise |
| SatelliteData.StarlinkBounds | src/data/satellites.ts:81-100 | Starlink satellites fly at 550 km with 53 degrees inclination; latitude is in [-53, 53) and longitude in [-180, 180) |
| SatelliteData.GeostationaryFixed | src/data/satellites.ts:103-146 | SBIRS and WGS satellites are operational and equatorial with 0 inclination at 35786 km; their longitudes come from their loop's table |
| SatelliteData.NroBounds | src/data/satellites.ts:149-168 | NRO satellites are operational; altitude is in [250, 550), inclination in [97, 103), period in [90, 100) |
| SatelliteData.DashboardStatsOf | src/data/satellites.ts:275-282 | the total is the list length; the operational, station and link counts are the lengths of the filters to operational satellites, online stations and active links; operational ≤ total, with equality iff all are operational; coverage is 94.7 and latency 45 |
| SatelliteData.OnlineStationCount | src/data/satellites.ts:175-240 | seven of the eight ground stations are online |
| SatelliteData.ActiveLinkCount | src/data/satellites.ts:242-273 | two of the three links are active |
| SatelliteData.GeneratedDashboard | src/data/satellites.ts:275-282 | over the generated data the dashboard shows 98 satellites, of which 24 to 98 are operational, plus 7 stations and 2 links |
| App.RemoveAll | src/App.tsx:21 | the id no longer occurs; every other id keeps its membership; the result is an order-preserving subsequence; an absent id changes nothing |
| App.Toggled | src/App.tsx:18-24 | the toggled id's visibility flips and no other id's changes; removing keeps the rest in order; adding appends at the end and keeps the earlier entries |
| App.ToggleRemovesOccurrences | src/App.tsx:19-21 | hiding an id drops all of its occurrences and keeps every occurrence of every other id |
| App.ToggleTwiceRestores | src/App.tsx:18-24 | toggling an invisible id twice restores the list |
| App.VisibleAfterSelect | src/App.tsx:26-34 | selecting a truthy id makes it visible; an already visible id or a falsy one (null or "") leaves the list as it was |
| App.PanelChoice | src/components/ConstellationPanel.tsx:41 | clicking the focused constellation's name passes null; clicking any other passes its id |
| App.PanelClickTwice | src/components/ConstellationPanel.tsx:41 | two clicks on the same name focus it and then clear the focus, and it stays visible |
| App.InitiallyAllVisible | src/App.tsx:12-14 | the initial visibility list holds every table id, in table order |
| App.AppState.constructor | src/App.tsx:11-16 | the panel starts open, every constellation is visible and nothing is selected |
| App.AppState.ToggleConstellation | src/App.tsx:18-24 | a toggle in the open panel sets visibility to `Toggled` of the old list; nothing else changes |
| App.AppState.SelectConstellation | src/App.tsx:26-34 | the selection becomes the argument; visibility becomes `VisibleAfterSelect` of the old list; nothing else changes |
| App.AppState.ClickConstellationName | src/components/ConstellationPanel.tsx:41 | a click on a name in the open panel selects through `PanelChoice` |
| App.AppState.TogglePanel | src/App.tsx:39 | the panel flag flips; nothing else changes |
| App.AppState.SelectSatellite | src/App.tsx:45-72 | the selected satellite becomes the argument (a satellite, or null from a missed click or the info card's close button); nothing else changes |
| Scene.VisibleSatellites | src/components/Scene.tsx:28-30 | exactly the satellites whose constellation is visible, as an order-preserving subsequence, never longer than the input |
| Scene.AllVisible | src/components/Scene.tsx:28-30 | with every constellation visible, the result is the input |
| Scene.NoneVisible | src/components/Scene.tsx:28-30 | with no constellation visible, the result is empty |
| Scene.InitialSceneShowsAll | src/components/Scene.tsx:28-30 | with the initial visibility list, the whole generated list is drawn |
| Scene.AtMostOneSelected | src/components/Scene.tsx:66 | among satellites with distinct ids, once one is marked selected no other is |
| Scene.IsSelected | src/components/Scene.tsx:66 | `selectedSatellite?.id === satellite.id`: nothing is marked when nothing is selected, and the selected satellite is marked; `AtMostOneSelected` and `GeneratedSelectionUnique` show the mark is on one satellite at most |
| Scene.GeneratedSelectionUnique | src/components/Scene.tsx:66 | in the generated list, selecting satellite k marks exactly satellite k |
| Earth.Channel | src/components/Earth.tsx:410-412 | a channel is `NaN` exactly when its two characters do not parse in base 16; otherwise it lies in [0, 255] |
| Earth.Shade | src/components/Earth.tsx:410-412 | a shaded channel of a `#rrggbb` colour lies in [0, 255] |
| Earth.HexColorChannel | src/components/Earth.tsx:409-412 | on a `#rrggbb` colour, channel k is read from hex positions [2k, 2k+2) after the '#' is removed, and equals that pair's value plus the amount, clamped |
| Earth.AdjustColor | src/components/Earth.tsx:408-414 | the output is always an `rgb(...)` text; for a `#rrggbb` colour it is `rgb(r, g, b)` with the three channels shifted, clamped to 0-255 and in decimal; other input goes through the same replace, substr and parseInt steps, so a missing channel prints as NaN (`ShortColour`) |
| Earth.ShortColour | src/components/Earth.tsx:408-414 | a three-digit colour is not expanded: `#fff` with amount 0 becomes `rgb(255, 15, NaN)` |
| Earth.ZeroAmountKeepsChannels | src/components/Earth.tsx:410-412 | amount 0 returns each channel of the input colour unchanged |
| Earth.ChannelMonotone | src/components/Earth.tsx:410-412 | a larger amount never gives a smaller channel, and whether a channel is `NaN` does not depend on the amount |
| Earth.DarkenAndLighten | src/components/Earth.tsx:410-412 | a non-positive amount (the -20 and -30 the texture uses) never raises a channel; a non-negative one never lowers it |
| Earth.FirstContinentColour | src/components/Earth.tsx:43 | the first continent's colour `#2d5a3d` with amount 0 becomes `rgb(45, 90, 61)` |

## Left out

- SatelliteData.SatelliteId: the function's own contract gives only the length bound. The full format is the lemma `SatelliteIdFormat`, because stating the format on the function makes every proof about the 98 generated records expensive.
- Network, CORS, `response.text()`, the request URL and `console.error` are not modelled. A fetch
  is a given outcome (a response with its `ok` flag and body, or a network error).
- CelestrakApi.CelesTrakService.FetchMultipleConstellations: `Promise.all` runs the fetches
  concurrently. The model takes them one after another in list order, so interleavings in
  which two fetches of the same group race are not modelled. `BatchOfDistinctGroups` shows
  that for distinct groups the order makes no difference to the results.
- CelestrakApi.ParseTleDetails: the decimal `parseInt` and `parseFloat` are parameters, not
  modelled digit by digit.
- CelestrakApi.EccentricityInUnitInterval: the lemma assumes that `parseFloat` reads "0."
  followed by digits as the exact decimal fraction. It does not model double rounding.
- CelestrakApi.OrbitalPeriod: it uses exact reals, not IEEE doubles. A zero mean motion gives
  `None` where JavaScript gives `Infinity`.
- CelestrakApi.EstimateAltitude: the semi-major axis (`Math.pow`, `Math.PI`, floating point)
  is a parameter. Only the subtraction of the Earth's radius and the floor at zero are modelled.
- CelestrakApi.GetOrbitType: altitudes are reals, so a `NaN` altitude is not modelled. In the
  source, every comparison with `NaN` fails and `NaN` is classed HEO.
- TLE lines are not length-checked anywhere in the client. A short record is kept and its
  out-of-range columns read as "". The model follows the code, so no length check is assumed.
- SatelliteData.GenerateSatellites: launch dates are not modelled. The two draws that each
  launch date consumes are counted, so every later draw is at the right position.
- SatelliteData.GenerateSatellites: `Math.random()` values are not modelled as doubles. The
  position and bound lemmas assume only that every draw lies in [0, 1).
- Satellite names, descriptions and colours are kept as data. No property is proved about them.
- App.AppState.SelectConstellation: React batches state updates. The handler reads
  `visibleConstellations` from the current render. The model applies each handler to the
  state left by the previous one, so several handlers in one batch are not modelled.
- App.AppState.ClickConstellationName: the panel's other markup is not modelled (icons, the
  satellite count, styling). Only its click-to-deselect rule is.
- JsText.Substring, JsText.Substr and JsText.CharAt: a Dafny `string` is a sequence of Unicode
  scalar values, while a JavaScript string is a sequence of UTF-16 code units. Offsets differ
  on text holding characters outside the Basic Multilingual Plane, which the model does not
  capture; TLE feeds and `#rrggbb` colours are ASCII.
- Earth.Channel: `amount` is an integer. Fractional amounts, which JavaScript would print
  with a fraction, are not modelled; the code only passes -20 and -30.
- The canvas texture, shaders, `useFrame` rotations and the other rendering in Earth.tsx
  and Scene.tsx are presentation and are not part of this model. So are the header, stats,
  info-card, settings and data-source components, tailwind.config.js, and the shared type
  declarations (kept only as record shapes).
