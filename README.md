# Registry router and animated counter, in Dafny

This project models the two parts of the shadcn custom-registry demo that have
precisely stated behaviour, and proves properties of them.

- **The registry's serverless handler** (`packages/registry/api/index.ts`,
  module `RegistryApi` in `registry_api.dfy`). It sets three CORS headers and
  answers an `OPTIONS` preflight at once. It strips a leading `/api` from the
  URL, with a missing or emptied URL becoming `/`. It then classifies the path
  as the health check, the registry index, a component manifest
  `/r/styles/S/C.json`, a colors file `/r/colors/B/N.json`, or not found. Last,
  it maps the route and the state of its backing file (missing, unreadable, or
  parsed) to a status and a JSON body. Routing is pure (`NormalizePath`,
  `MatchPair`, `Classify`, `Route`). The file system and `JSON.parse` are an
  oracle from the path segments the handler joins to a `FileState`. The mutated
  response object is built as one `Response` value.
- **The animated counter's engine**
  (`packages/registry/registry/ui/animated-counter.tsx`, modules `Easings` in
  `easings.dfy` and `AnimatedCounter` in `animated_counter.dfy`). It covers the
  four easing curves and the per-frame step `animate`: latch a start time,
  clamp progress to 1, interpolate from the run's start value to the target,
  and request another frame while progress is below 1. It also covers the
  effect that starts a run from the value on display and cancels it on
  cleanup, the one-shot "start on view" gate, and the prop defaults. Numbers
  are reals. The browser's frame and intersection callbacks and React's effect
  re-runs are explicit events on the class `Counter`: `Tick(now)`,
  `ObserveIntersection`, `Rerender` and `Unmount`.

Behaviour of the code that the proofs make explicit:

- The request URL keeps its query string. So `/health?x=1` and
  `/r/index.json?v=2` are not found. A manifest path with a query is not found
  either, unless the query has no `/` and itself ends in `.json`. In that case
  the pattern still matches and the component capture swallows `.json?` and the
  query (`QueryOnManifestPath`).
- `/api` is stripped once and only at the start, so `/api/api/health` is not
  the health check. Note also that `/apihealth` becomes `health`, which no
  route matches.
- The not-found body lists three endpoints and does not mention the colors
  route. It labels them `GET`, although every method except `OPTIONS` is
  routed the same way.
- The start-time latch tests `!startTime`. A run whose first frame has
  timestamp 0 therefore latches again on its next frame (`LatchAtZeroRun`).

The code does not force the final frame to the target. It computes
`startValue + (value - startValue) * ease(1)`, and every curve gives exactly 1
at 1, so over the reals the last frame shows the target anyway (`Counter.Tick`,
`FrameValue`). The code does not guard the duration either. A duration of 0
divides 0 by 0 on the first frame and displays NaN. A negative duration makes
progress negative on every frame after the first, so the run never ends and
the display moves away from the target. The model requires a positive
duration, as listed below.

## Model

| member | source | states |
|---|---|---|
| `RegistryApi.Handle` | packages/registry/api/index.ts:8-16 | every response, preflight, 404 and 500 included, carries the same three CORS headers; an `OPTIONS` request gets 200 with no body; every other request gets a JSON body |
| `RegistryApi.PreflightShortCircuits` | packages/registry/api/index.ts:14-16 | an `OPTIONS` response is the same whatever the URL, the files and the clock: 200, the CORS headers, no body |
| `RegistryApi.OnlyOptionsIsSpecial` | packages/registry/api/index.ts:14-19 | any method other than `OPTIONS` (POST, none at all, ...) routes exactly as GET and never as a preflight |
| `RegistryApi.NormalizePath` | packages/registry/api/index.ts:18-19 | the path handed to the router is never empty |
| `RegistryApi.ApiStrippedOnlyAtStart` | packages/registry/api/index.ts:19 | a non-empty URL not starting with `/api` reaches the router unchanged, even when `/api` occurs later in it |
| `RegistryApi.ApiMountTransparent` | packages/registry/api/index.ts:19 | `/api` + p normalises and routes exactly as p, for every p not itself starting with `/api` |
| `RegistryApi.ApiStrippedOnce` | packages/registry/api/index.ts:19-22 | a doubled prefix loses one copy only; `/api/api/health` is not the health check |
| `RegistryApi.DefaultPathIsHealth` | packages/registry/api/index.ts:19-28 | a missing URL, the empty URL and exactly `/api` all become `/` and reach the health check, whose answer is the health report |
| `RegistryApi.Route` | packages/registry/api/index.ts:14-19 | a request is a preflight if and only if its method is `OPTIONS`; every other request is classified by its normalised path |
| `RegistryApi.Classify` | packages/registry/api/index.ts:21-83 | never a preflight; the health check if and only if the path is `/` or `/health`; the index if and only if the path is exactly `/r/index.json` (the two patterns are in `ClassifyManifestIff` and `ClassifyColorsIff`) |
| `RegistryApi.FileOf` | packages/registry/api/index.ts:32-70 | only the index, manifest and colors routes read a file; it lies under `r`, in `styles` or `colors` named by the first capture, and its name ends in `.json` |
| `RegistryApi.MatchPair` | packages/registry/api/index.ts:47-49 | when the two-segment pattern matches, both captures are non-empty and `/`-free and rebuild the path as prefix + S + `/` + C + `.json` |
| `RegistryApi.MatchPairComplete` | packages/registry/api/index.ts:47-49 | every path prefix + S + `/` + C + `.json` with S and C non-empty and `/`-free matches, capturing exactly S and C (with the contract of `MatchPair`: the match is an if-and-only-if, and the captures round-trip) |
| `RegistryApi.RoutePatternsDisjoint` | packages/registry/api/index.ts:21-83 | at most one of the health, index, manifest and colors patterns matches any path, so the order in which they are tried never decides the route |
| `RegistryApi.ClassifyManifestIff` | packages/registry/api/index.ts:46-50 | a path is routed to the manifest of (S, C) if and only if it is `/r/styles/S/C.json` with S and C non-empty and `/`-free |
| `RegistryApi.ClassifyColorsIff` | packages/registry/api/index.ts:66-70 | a path is routed to the colors file (B, N) if and only if it is `/r/colors/B/N.json` with B and N non-empty and `/`-free |
| `RegistryApi.QueryOnExactRoute` | packages/registry/api/index.ts:19-31 | the health and index paths with `?` and any query appended are not found |
| `RegistryApi.QueryOnManifestPath` | packages/registry/api/index.ts:19-49 | a manifest path with `?` + q appended is not found unless q has no `/` and ends in `.json`, and then it is the manifest whose component is C + `.json?` + q without its final `.json` |
| `RegistryApi.ComponentNotFound` | packages/registry/api/index.ts:53-55 | the missing-manifest message carries the component name after `Component "` and the style name just before the closing quote |
| `RegistryApi.HealthBody` | packages/registry/api/index.ts:23-27 | the health report is an object of three members, among them status "ok" and the given timestamp |
| `RegistryApi.NotFoundBody` | packages/registry/api/index.ts:85-92 | the not-found body is `error: "Not found"` followed by a list of exactly three endpoints, none of them the colors route |
| `RegistryApi.Respond` | packages/registry/api/index.ts:21-92 | the decision table: 500 exactly when the route's file exists but cannot be read or parsed; 404 exactly for an unknown route or a missing index or manifest; 200 otherwise, a missing colors file included; a parsed file is sent as it is; the health check sends the health report; only the preflight has no body |
| `RegistryApi.IndexResponses` | packages/registry/api/index.ts:30-44 | a missing index gives 404 with "Registry index not found"; an unreadable one 500 with "Failed to read registry index"; a parsed one 200 with the document |
| `RegistryApi.RespondReadsOnlyItsFile` | packages/registry/api/index.ts:31-81 | a response depends on the files only through the one file its route reads, and on the clock only for the health check |
| `RegistryApi.ManifestResponses` | packages/registry/api/index.ts:52-63 | a missing manifest gives 404 with the message naming component and style; an unreadable one 500 with "Failed to read component manifest"; a parsed one 200 with the document |
| `RegistryApi.ColorsResponses` | packages/registry/api/index.ts:72-81 | a missing colors file gives 200 with `{}`, not 404; an unreadable one 500 with "Failed to read colors"; a parsed one 200 with the document |
| `RegistryApi.UnknownPathIsNotFound` | packages/registry/api/index.ts:84-92 | a path matched by no pattern gets 404 with the `error` and `availableEndpoints` body, whatever the files |
| `Easings.Ease` | packages/registry/registry/ui/animated-counter.tsx:26-39 | every curve gives exactly 0 at t = 0 and exactly 1 at t = 1; for `spring` through its two explicit endpoint cases |
| `Easings.EaseInOutHalvesMeet` | packages/registry/registry/ui/animated-counter.tsx:29-30 | both formulas of `easeInOut` give 0.5 at t = 0.5 |
| `Easings.EaseInUnit` | packages/registry/registry/ui/animated-counter.tsx:27-30 | `linear`, `easeOut` and `easeInOut` map [0, 1] into [0, 1] |
| `Easings.EaseMonotone` | packages/registry/registry/ui/animated-counter.tsx:27-30 | `linear`, `easeOut` and `easeInOut` are non-decreasing on [0, 1], across the switch of `easeInOut` included |
| `AnimatedCounter.WithDefaults` | packages/registry/registry/ui/animated-counter.tsx:43-51 | the target is kept, and an omitted duration yields a positive one that the counter accepts; the default values themselves (2000 ms, `easeOut`, start on view) are in `DefaultsRun` |
| `AnimatedCounter.Progress` | packages/registry/registry/ui/animated-counter.tsx:92-93 | progress never exceeds 1, is exactly 1 if and only if the duration has elapsed, is elapsed / duration before that, and is not negative for a non-negative elapsed time |
| `AnimatedCounter.ProgressMonotone` | packages/registry/registry/ui/animated-counter.tsx:91-93 | progress is non-decreasing in the elapsed time |
| `AnimatedCounter.FrameValue` | packages/registry/registry/ui/animated-counter.tsx:94-96 | a frame at progress 0 shows the run's start value and one at progress 1 shows exactly the target, whatever the curve |
| `AnimatedCounter.Interpolate` | packages/registry/registry/ui/animated-counter.tsx:96 | an eased progress of 0 gives the run's start value and one of 1 gives exactly the target |
| `AnimatedCounter.InterpolateBetween` | packages/registry/registry/ui/animated-counter.tsx:96 | interpolating with an eased progress in [0, 1] stays between the start value and the target |
| `AnimatedCounter.FrameValueBetween` | packages/registry/registry/ui/animated-counter.tsx:87-96 | with `linear`, `easeOut` or `easeInOut`, every displayed value lies between the run's start value and its target |
| `AnimatedCounter.Latch` | packages/registry/registry/ui/animated-counter.tsx:91 | a frame sees elapsed time 0 exactly when it latches (no start time, or a falsy start time of 0) or arrives at the latched time; a latched start time of 0 comes only from a frame at time 0 |
| `AnimatedCounter.NextFrame` | packages/registry/registry/ui/animated-counter.tsx:91-96 | from what earlier frames of a run left behind: a latching frame has progress 0; progress does not go back while frame times do not; a non-overshooting curve shows a value between start and target |
| `AnimatedCounter.Counter.constructor` | packages/registry/registry/ui/animated-counter.tsx:57-83 | the display starts at 0 and `hasStarted` at `!startOnView`; with start-on-view the observer is connected and no frame is requested, without it the first run starts at once from 0 |
| `AnimatedCounter.Counter.RestartRun` | packages/registry/registry/ui/animated-counter.tsx:82-111 | the effect cancels the pending frame and, once started, begins a new run from the value on display with no start time; before the start it does nothing |
| `AnimatedCounter.Counter.Tick` | packages/registry/registry/ui/animated-counter.tsx:90-102 | a frame that was not requested (or was cancelled) changes nothing; otherwise the latch, the clamped progress, the eased value and a reschedule exactly when progress < 1; the latching frame shows the start value; the frame that requests no successor shows exactly the target; progress does not go back while frame times do not; bounded curves keep the display between start and target; the counter's invariant is kept |
| `AnimatedCounter.Counter.ObserveIntersection` | packages/registry/registry/ui/animated-counter.tsx:63-74 | the first intersecting report sets `hasStarted`, disconnects the observer and starts the first run from 0 at progress 0; any other report changes nothing; `hasStarted` is never reset |
| `AnimatedCounter.Counter.Rerender` | packages/registry/registry/ui/animated-counter.tsx:82-111 | a change of target, duration or curve after the start cancels the frame and starts a new run from the value on display, not from 0; otherwise no run is touched and the progress stays |
| `AnimatedCounter.Counter.Unmount` | packages/registry/registry/ui/animated-counter.tsx:76-110 | cleanup cancels the pending frame and disconnects the observer, keeping the displayed value; a second cleanup changes nothing more |
| `AnimatedCounter.LatchAtZeroRun` | packages/registry/registry/ui/animated-counter.tsx:90-96 | a run whose first frame has time 0 shows its start value on the first two frames, because the falsy latch fires again |
| `AnimatedCounter.RetargetRun` | packages/registry/registry/ui/animated-counter.tsx:85-111 | a new target set half-way (at 50 of 100) starts the next run from 50 and ends exactly on the new target |
| `AnimatedCounter.StartOnViewRun` | packages/registry/registry/ui/animated-counter.tsx:58-101 | with start-on-view, frames and non-intersecting reports before the element is seen show nothing; after the first intersection the run settles on the target with nothing pending, for every curve |
| `AnimatedCounter.DefaultsRun` | packages/registry/registry/ui/animated-counter.tsx:43-101 | with every optional prop omitted the counter waits for the first intersection, then runs with `easeOut` over 2000 ms: 0.875 of the target half-way, exactly the target 2000 ms after the first frame, with nothing pending |
| `AnimatedCounter.UnmountRun` | packages/registry/registry/ui/animated-counter.tsx:104-110 | a frame delivered after unmounting mid-run changes nothing and no frame stays pending |

## Left out

- The file system and JSON parsing (`existsSync`, `readFileSync`, `JSON.parse`) are an oracle over paths. A directory that exists but cannot be read counts as `Malformed`, like a parse error, because both land in the same `catch`.
- `path.join` under `process.cwd()/public` is not modelled. Files are keyed by the segments the handler joins. `join` would also collapse a style segment of `..`, so `/r/styles/../C.json` reads `public/r/C.json`; the model keys that read as `["r", "styles", "..", "C.json"]`.
- The health check's `timestamp` (`new Date().toISOString()`) is a parameter of `Handle`, because it depends on the clock.
- JSON documents are an abstract datatype with integer numbers. The handler only copies parsed documents through, so nothing depends on their numbers.
- The order of `setHeader` calls on the response object and the Vercel runtime around the handler are not modelled; the response is one value.
- `packages/registry/src/server.ts` is not part of this model. Its routes are Express route patterns from a library outside this repository, and its handlers are file I/O.
- The interior of `spring` (`Math.pow(2, -10t) * Math.sin(...)`) is the parameter `wave`, because it is transcendental and host-computed. Only its t = 0 and t = 1 cases are fixed, and no bound is claimed for it.
- Floating point: the model uses reals. "The last frame shows exactly the target" holds in the model; IEEE doubles may round the interpolation.
- AnimatedCounter.Counter.constructor: requires a positive duration. The code has no guard: a duration of 0 divides 0 by 0 (NaN), and a negative one gives negative progress on every later frame, so the run never ends and diverges from the target.
- AnimatedCounter.Counter.Rerender: requires the new duration to be positive, for the same reason.
- AnimatedCounter.Progress: requires a positive duration, for the same reason; so do `ProgressMonotone` and the counter's invariant.
- NaN and infinite inputs (a NaN frame time, a NaN target) are not modelled; reals have none.
- Display formatting (`Math.round`, `toLocaleString`, `toFixed`, prefix and suffix) is not modelled. It is host-library float and locale conversion.
- React plumbing is replaced by explicit events: `forwardRef`, `useCombinedRefs`, `useMemo`, effect dependency comparison, `requestAnimationFrame` and `IntersectionObserver`. The model assumes the element is mounted when the observer effect runs. It takes the observer's callback as one report about `entries[0]`, ignores the 0.1 threshold, and does not model a change of the `startOnView` prop after mounting.
- `packages/registry/registry/ui/gradient-card.tsx` and `apps/web/src/components/ui/fancy-button.tsx` are not part of this model. They are variant-to-class-string tables composed by external libraries. `apps/web/src/app/page.tsx` is static markup and is not modelled either.
