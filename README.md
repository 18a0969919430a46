# MoveWise traffic simulator and client rules, in Dafny

This project models the core of MoveWise, a municipal traffic-monitoring
dashboard, and proves properties of that model.

- **The traffic-signal simulator** (`server/simulation/trafficSimulator.js`).
  - It maps a vehicle count to a congestion tier (LOW, MEDIUM, HIGH) and a tier to a GREEN duration.
  - On start-up it seeds every signal as RED with timer 0.
  - Once a second it perturbs every signal's vehicle count, clamps it to [0,100] and recomputes the tier. It then counts the timer down or moves the light on through RED → GREEN → YELLOW → RED.
  - It applies administrators' overrides (`forceGreen`, `forceRed`, `forceYellow`).
  - It broadcasts the whole signal list after every tick and after every override on a known signal.
  - The list lives in a `SignalRegistry` object whose `signals` field the tick and the override reassign. A ghost field records every broadcast snapshot.
- **Client-side rules**:
  - the login and signup input checks, which share one e-mail regular expression;
  - the incident-report checks, its payload and the form reset;
  - the signal panel's 10-entry reading history;
  - the route planner's start/end picker, route fetch guards, coordinate swap and vehicle animation;
  - the vector map's inverse coordinate swap, route features and vehicle marker.

Modules: `Common` (optional values and JavaScript white space), `EmailRule`,
`TrafficSimulator`, `TrafficRuns` (multi-step properties of the simulator),
`Login`, `Signup`, `IncidentForm`, `SignalInfoPanel`, `RoutePlanner`, `RouteMap`.

Behaviour of the code that the model keeps, although it is easy to overlook:

- The override handler takes `duration || 30` (or `|| 5`), so a missing or zero duration gets the default. The handler does not reject a negative duration: it is used as given and makes the timer negative. `TrafficRuns.NegativeDurationAccepted` shows this. `TrafficRuns.RunKeepsSettled` proves the invariant for runs whose overrides carry no negative duration. `TrafficSimulator.Ticked` shows that the next tick treats a negative timer as expired and leaves a timer that is not negative.
- The handler does not reject an unknown override action. It leaves the signal as it is and still broadcasts when the id is known. `TrafficSimulator.SignalRegistry.Override` follows the code.
- Seeding does not set `congestion`. Here `congestion` stays absent until the first tick.

## Model

| member | source | states |
|---|---|---|
| `TrafficSimulator.CongestionLevel` | server/simulation/trafficSimulator.js:13-17 | LOW exactly below 30, MEDIUM exactly for 30..59, HIGH exactly from 60 |
| `TrafficSimulator.CongestionMonotone` | server/simulation/trafficSimulator.js:13-17 | more vehicles never give a lower tier |
| `TrafficSimulator.GreenDuration` | server/simulation/trafficSimulator.js:20-27 | 40/20/10 for HIGH/MEDIUM/LOW, 15 for any other label, so always one of {10,15,20,40} and positive |
| `TrafficSimulator.GreenDurationByTier` | server/simulation/trafficSimulator.js:20-27 | for real tiers GREEN lasts 10..40 s, never shorter for a higher tier |
| `TrafficSimulator.SeedSignal` | server/simulation/trafficSimulator.js:33-41 | a seeded signal keeps id/lat/lng, is RED with timer 0 and phaseDuration 10, and has the given count or 0 |
| `TrafficSimulator.Seeded` | server/simulation/trafficSimulator.js:31-42 | one seeded signal per seed entry, same order |
| `TrafficSimulator.Clamp` | server/simulation/trafficSimulator.js:77 | result in [0,100], equal to the input when already in range, 0 below, 100 above |
| `TrafficSimulator.EntrySeconds` | server/simulation/trafficSimulator.js:86-95 | every clock-entered phase gets a positive duration |
| `TrafficSimulator.CycleOfThree` | server/simulation/trafficSimulator.js:86-95 | three transitions return to the starting light after visiting all three lights |
| `TrafficSimulator.Ticked` | server/simulation/trafficSimulator.js:71-106 | after a tick: id/lat/lng kept, count = clamp(old+delta) in [0,100], congestion = tier of the new count, timer ≥ 0; timer > 0 counts down by 1 keeping light and phaseDuration; timer ≤ 0 moves to the next light with timer = phaseDuration = that phase's duration for the new tier |
| `TrafficSimulator.TickSignal` | server/simulation/trafficSimulator.js:72-106 | the step-by-step per-signal body computes exactly `Ticked` |
| `TrafficSimulator.TickAll` | server/simulation/trafficSimulator.js:71-107 | the tick keeps the list's length and order and ticks each signal with its own delta |
| `TrafficSimulator.TickDrift` | server/simulation/trafficSimulator.js:76-77 | with a delta from getRandomInt(-5, 8), an in-range count moves down by at most 5 and up by at most 8 |
| `TrafficSimulator.DurationOr` | server/simulation/trafficSimulator.js:52-61 | `duration \|\| d`: an absent or zero duration gives the fall-back; any other duration, negative included, is used as given; so the result is never 0 with a non-zero fall-back, and positive when the duration is not negative |
| `TrafficSimulator.Forced` | server/simulation/trafficSimulator.js:49-62 | forceGreen/forceRed set the light and timer = phaseDuration = duration or 30; forceYellow the same with 5; any other action leaves the signal unchanged; no other field ever changes |
| `TrafficSimulator.FindSignal` | server/simulation/trafficSimulator.js:48 | finds the first signal with the id, or reports that no signal has it |
| `TrafficSimulator.Overridden` | server/simulation/trafficSimulator.js:47-65 | an unknown id leaves the list unchanged; a known id changes only the first matching signal |
| `TrafficSimulator.SignalRegistry.constructor` | server/simulation/trafficSimulator.js:11 | the registry starts with no signals and no broadcasts |
| `TrafficSimulator.SignalRegistry.Load` | server/simulation/trafficSimulator.js:31-42 | seeds only an empty list; a non-empty list is kept |
| `TrafficSimulator.SignalRegistry.Tick` | server/simulation/trafficSimulator.js:70-115 | the new list is `TickAll` of the old one, and exactly one snapshot of it is broadcast |
| `TrafficSimulator.SignalRegistry.Override` | server/simulation/trafficSimulator.js:47-65 | the new list is `Overridden` of the old one; an unknown id broadcasts nothing; a known id broadcasts one snapshot even for an unrecognised action |
| `TrafficRuns.RunKeepsIdentity` | server/simulation/trafficSimulator.js:99-106 | no interleaving of ticks and overrides adds, removes, reorders or moves a signal |
| `TrafficRuns.TickSettles` | server/simulation/trafficSimulator.js:76-97 | after one tick every signal has its count in [0,100], a matching tier and a timer ≥ 0, whatever came before |
| `TrafficRuns.RunKeepsSettled` | server/simulation/trafficSimulator.js:47-106 | ticks and overrides with non-negative durations preserve that invariant |
| `TrafficRuns.NegativeDurationAccepted` | server/simulation/trafficSimulator.js:54-57 | a forceRed with duration −3 sets the timer to −3 |
| `TrafficRuns.Countdown` | server/simulation/trafficSimulator.js:82-83 | a phase with t seconds left keeps its light and phaseDuration for t ticks and ends at timer 0 |
| `TrafficRuns.SwitchAfterCountdown` | server/simulation/trafficSimulator.js:82-97 | the (t+1)-th tick moves to the next light of the cycle |
| `TrafficRuns.Expirations` | server/simulation/trafficSimulator.js:82-85 | at most one light change per tick |
| `TrafficRuns.ClockFollowsCycle` | server/simulation/trafficSimulator.js:82-97 | under the clock alone the light after any ticks is the start light advanced through RED → GREEN → YELLOW by exactly the number of ticks that found the timer at or below 0, so no phase is skipped or repeated |
| `TrafficRuns.MediumSeedFirstTick` | server/simulation/trafficSimulator.js:31-42 | a seed with 50 vehicles and delta 0 is MEDIUM, GREEN and has timer 20 after the first tick |
| `EmailRule.EmailRegexMeaning` | client/src/pages/Login.jsx:25-29 | the regex accepts exactly the strings with no white space, exactly one '@', a non-empty local part and a domain holding a '.' that is neither its first nor its last character |
| `Common.TrimEmptyIffBlank` | client/src/components/IncidentForm.jsx:20 | `trim()` gives the empty string exactly when every character is white space |
| `Login.ValidateLogin` | client/src/pages/Login.jsx:21-33 | passes exactly when both fields are present, the e-mail matches and the password has ≥ 8 characters; otherwise it reports the first failing check in order |
| `Login.PasswordBoundary` | client/src/pages/Login.jsx:30-33 | a password of exactly 8 characters passes and one of 7 is rejected |
| `Login.MalformedEmailNotSent` | client/src/pages/Login.jsx:25-29 | an address with white space or without '@' gets the e-mail error and no request |
| `Login.OrElse` | client/src/pages/Login.jsx:47 | JavaScript `a \|\| b`: a missing or empty first string falls back to the second |
| `Login.LandingPage` | client/src/pages/Login.jsx:43-44 | /admin exactly for role "admin", /dashboard for every other role |
| `Login.HandleLogin` | client/src/pages/Login.jsx:17-49 | a request is sent exactly when validation passes; otherwise the error is the first failing check; on success the error is cleared and the role decides the redirect; on failure the error is the server message, else the error's message, else "Login failed" |
| `Signup.InitialForm` | client/src/pages/Signup.jsx:10-16 | role "user" and every other field empty |
| `Signup.HandleChange` | client/src/pages/Signup.jsx:19-21 | the named field takes the value and every other field is unchanged |
| `Signup.ChangesCompose` | client/src/pages/Signup.jsx:19-21 | a second change to a field overrides the first; changes to different fields commute |
| `Signup.ValidateSignup` | client/src/pages/Signup.jsx:25-38 | passes exactly when name, e-mail and password are present, the e-mail matches and the password has ≥ 8 characters; role and admin key are not checked; otherwise the first failing check |
| `Signup.SignupChecksAgreeWithLogin` | client/src/pages/Signup.jsx:30-38 | with a name present, signup validation gives the same verdict as login validation |
| `Signup.HandleSignup` | client/src/pages/Signup.jsx:23-47 | the whole form is sent exactly when validation passes; success alerts and navigates to /login; failure alerts the server message or "Signup failed" |
| `Signup.InitialFormRejected` | client/src/pages/Signup.jsx:26-29 | the untouched form is never sent |
| `IncidentForm.EffectiveType` | client/src/components/IncidentForm.jsx:18 | the custom type when "OTHER" is selected, otherwise the selected type |
| `IncidentForm.PrepareIncident` | client/src/components/IncidentForm.jsx:13-33 | no location → location alert; a blank effective type → type alert; otherwise a payload with that type, the description, the location's lat/lng, the priority and the image |
| `IncidentForm.SpacesAreNoType` | client/src/components/IncidentForm.jsx:20-23 | a custom type of only spaces is refused |
| `IncidentForm.ReportForm.constructor` | client/src/components/IncidentForm.jsx:6-10 | the form starts at ACCIDENT/MEDIUM with empty custom type, description and image |
| `IncidentForm.ReportForm.Submit` | client/src/components/IncidentForm.jsx:12-46 | a rejected or failed submit changes nothing; a successful one returns every field to its default and clears the location |
| `IncidentForm.ReportForm.HandleImageUpload` | client/src/components/IncidentForm.jsx:48-61 | no file or a file over 5,000,000 bytes keeps the image (the latter with an alert); otherwise the image becomes the file's data URL |
| `SignalInfoPanel.NextHistory` | client/src/components/SignalInfoPanel.jsx:13-21 | the new history has min(9, old length) + 1 ≤ 10 entries: the newest old entries in order, then the new sample; below 10 entries the old history is a prefix |
| `SignalInfoPanel.NextIsLastTen` | client/src/components/SignalInfoPanel.jsx:14 | one update gives the last 10 of old history plus the new sample |
| `SignalInfoPanel.FillKeepsLastTen` | client/src/components/SignalInfoPanel.jsx:13-21 | after one or more readings the history is exactly the last 10 samples of everything seen, oldest dropped first |
| `SignalInfoPanel.HistoryBuffer.constructor` | client/src/components/SignalInfoPanel.jsx:8 | the history starts empty |
| `SignalInfoPanel.HistoryBuffer.Record` | client/src/components/SignalInfoPanel.jsx:10-22 | no signal leaves the history unchanged; a signal appends its vehicles/avgSpeed/aqi sample through `NextHistory`, keeping at most 10 entries |
| `RoutePlanner.Pick` | client/src/pages/RoutePlanner.jsx:40-46 | with no start a click sets only the start; with a start and no end it sets only the end; with both it changes nothing |
| `RoutePlanner.ThreeClicks` | client/src/pages/RoutePlanner.jsx:41-46 | from an empty map two clicks set start then end, and a third click is ignored |
| `RoutePlanner.ToLatLng` | client/src/pages/RoutePlanner.jsx:94 | every `[lng,lat]` point becomes `[lat,lng]`, with count and order kept |
| `RoutePlanner.ProcessRoutes` | client/src/pages/RoutePlanner.jsx:83-99 | one kept route per received route, in order, each with its swapped geometry |
| `RoutePlanner.AnimationStep` | client/src/pages/RoutePlanner.jsx:116-119 | the index never decreases, moves by at most 1, and moves exactly when it is below the last index |
| `RoutePlanner.StepsSaturate` | client/src/pages/RoutePlanner.jsx:113-119 | from an index within the route, n steps give min(start + n, last index) |
| `RoutePlanner.Planner.constructor` | client/src/pages/RoutePlanner.jsx:54-59 | no points, no routes, route 0 selected, vehicle at 0 |
| `RoutePlanner.Planner.Click` | client/src/pages/RoutePlanner.jsx:38-47 | start and end change as `Pick` says, nothing else changes, and the page invariant holds |
| `RoutePlanner.Planner.Reset` | client/src/pages/RoutePlanner.jsx:179-183 | start, end and routes are cleared; nothing else changes |
| `RoutePlanner.Planner.FetchRoutes` | client/src/pages/RoutePlanner.jsx:63-107 | without both points: alert and no change; otherwise the route type is set; a failure or an empty answer keeps the routes; a non-empty answer stores the processed routes, selects route 0 and restarts the vehicle at 0 |
| `RoutePlanner.Planner.SelectRoute` | client/src/pages/RoutePlanner.jsx:238 | the clicked route becomes selected; the vehicle restarts at 0 only when the selection changed |
| `RoutePlanner.Planner.StepAnimation` | client/src/pages/RoutePlanner.jsx:115-120 | the vehicle takes one `AnimationStep` on the selected route and stays within its last index |
| `RouteMap.ToLngLat` | client/src/components/RouteMap.jsx:47 | every `[lat,lng]` point becomes `[lng,lat]`, with count and order kept |
| `RouteMap.SwapRoundTrip` | client/src/components/RouteMap.jsx:47 | the map's swap undoes the planner's, and the other way round, so the features carry the routing service's geometry |
| `RouteMap.RouteLayers` | client/src/components/RouteMap.jsx:42-57 | one feature per route with its index and swapped points; a feature is selected exactly when its index is the selected index |
| `RouteMap.SelectedFeatureUnique` | client/src/components/RouteMap.jsx:54 | at most one feature is selected; exactly one when the index names a route |
| `RouteMap.VehiclePosition` | client/src/components/RouteMap.jsx:59-61 | absent exactly when there are no routes or an index is out of range; otherwise `{lng: point[1], lat: point[0]}` |
| `RouteMap.VehicleOnServicePoint` | client/src/components/RouteMap.jsx:59-61 | on processed routes the marker is the routing service's original `[lng,lat]` point |
| `RouteMap.MapView.constructor` | client/src/components/RouteMap.jsx:15 | the vehicle starts at index 0 |
| `RouteMap.MapView.HandleMapClick` | client/src/components/RouteMap.jsx:33-39 | start, then end, then nothing, as `Pick` says |
| `RouteMap.MapView.RoutesChanged` | client/src/components/RouteMap.jsx:18-21 | with routes the vehicle goes back to 0; without routes nothing changes |
| `RouteMap.MapView.StepAnimation` | client/src/components/RouteMap.jsx:23-28 | one `AnimationStep` on the selected route, which keeps an in-range index in range |

## Left out

- Socket.IO connections and the `io.emit` transport are not modelled. A broadcast is modelled only as a snapshot appended to the registry's ghost `broadcasts` log.
- The 1-second and 200 ms intervals are not modelled. Nor is the start-up in `server/index.js`, which passes `simulateTraffic` to a 5 s `setInterval` without any argument. Its first call therefore seeds the list and then throws at `io.on`, because `io` is undefined. This happens before the override handler or the 1-second tick is registered, and the uncaught error in a timer callback ends the server process. The model describes what `simulateTraffic` does when it is given a Socket.IO server. One tick, one override and one animation step are methods. Ticks and overrides are treated as a sequential interleaving, since the server is single-threaded.
- `Math.random` in `getRandomInt` is not modelled. Each signal's delta is an input; `SignalRegistry.Tick` requires it to lie in [-5, 8].
- Reading and parsing `trafficData.json` is not modelled. The seed is a list of entries given as input. Fields of a seed record other than id, location and vehicles pass through the spread and are not modelled.
- Timestamps are not modelled. `lastUpdated` and the history `time` label are opaque strings given as input.
- HTTP calls are not modelled (login, signup, incidents, the OSRM routing service). Their answers are inputs. The user record that `login()` stores in the auth context is not part of this model.
- Route distance and duration are not modelled: the division, the "optimal" penalties and `toFixed`, which are floating point. The `steps` of each route are not modelled either. Reading `r.legs[0].steps` throws for a route without legs, and the catch then alerts "Failed to fetch route" and keeps the old routes. `RoutePlanner.Planner.FetchRoutes` assumes every received route has a leg.
- React rendering, alerts shown as dialogs and navigation are not modelled. They appear only as returned strings and paths. An effect is modelled as running right after the state change that triggers it.
- `Login.ValidateLogin`, `Signup.ValidateSignup`: password length is counted in Unicode characters, not in JavaScript's UTF-16 code units. The two differ only for characters outside the Basic Multilingual Plane. Four such characters pass `password.length < 8` in JavaScript but fail here.
- `TrafficSimulator.Forced`, `TrafficSimulator.DurationOr`: override durations and timers are taken as integers. JavaScript number semantics are not modelled. A fractional duration such as 2.5 would count down past zero to −0.5. `duration || 30` would also fall back for `null`, `NaN` or `""`. Neither fractional nor non-numeric payloads are modelled.
- `IncidentForm.PrepareIncident`: tests the blank type directly. It does not call `trim()`, since `Common.TrimEmptyIffBlank` proves the two tests agree.
- The incident form's remove-marker and remove-image buttons are not modelled; each only sets one field to empty. The route planner's fly-to on a searched location is not modelled; it only moves the view.
- The server routes, the document models and the display components are not part of this model.
