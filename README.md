# Construction proximity in smartrajet, modelled in Dafny

smartrajet is a mobile app for Montreal. It shows road-work obstructions
("entraves") near a chosen route and warns about upcoming work near the
user's saved addresses. Both features come from one pipeline, which appears
in three variants. First the obstructions of Montreal's open-data set are
joined with their traffic and sidewalk impacts. Then:

- `utils/useHtmlBuilder.ts` fetches a route between two chosen points. It
  places a marker, with an icon and a popup, on every enriched construction
  within a distance limit of that route.
- `utils/backgroundTasks.ts` registers a background task, with a
  `minimumInterval` of `60 * 60 * 24`, that the platform runs from time to
  time. The task keeps the constructions that start in the future and sends
  each saved address at most one notification, for the first construction
  within 100 m.
- `components/ExternalLink.tsx` is an earlier variant of the join. It renders
  one `L.marker(...)` script snippet per joined record.

## Modules

| file | module | models |
|---|---|---|
| `Values.dfy` | `Values`, `JsString` | JavaScript values (`undefined`, `null` or a string), truthiness, template-literal text, `String.prototype.trim`, `split(sep)[0]` |
| `Records.dfy` | `Records` | the obstruction and impact records, positions, the outcome of a geometry call |
| `Enrichment.dfy` | `Enrichment` | the impact lookup, `filter`, and the inner join that all three variants share |
| `MapAnnotation.dfy` | `MapAnnotation` | the map of `utils/useHtmlBuilder.ts` |
| `GeofenceSweep.dfy` | `GeofenceSweep` | registration and the `CHECK_CONSTRUCTIONS` task of `utils/backgroundTasks.ts` |
| `MarkerScript.dfy` | `MarkerScript` | the join and `markersJS` of `components/ExternalLink.tsx` |

### Modelling choices

- A record field is a `Field`: `Missing` (`undefined`), `Null` or `Str(s)`.
  A field is truthy when it is a non-empty string. The lookup is keyed by
  `Field` because a JavaScript `Map` accepts `undefined` and `null` as keys.
  The unguarded background lookup does store them.
- Coordinates have an abstract numeric type `N`. The unary `+` on a
  coordinate string is a parameter `toNumber`.
- The geometry library is a parameter. `turf.pointToLineDistance` and
  `turf.distance` are functions that return `Meters(m)` or `Raised` (the call
  throws). Whether `turf.point` accepts a saved address's coordinates is a
  parameter `pointOk`. `turf.lineString` throws on fewer than two positions.
  The model does not compute distances, so every property holds for any
  metric.
- `new Date(...)` on a start date is a parameter `parseDate` that returns
  `Valid(ms)` or `Invalid`. The current time is one integer, `now`.
  `toLocaleDateString` is a parameter `formatDate`.
- The network and storage are inputs: the data sets, the saved-address
  entry and the route geometry. A request, a parse or an envelope that fails
  is `None`.
- The two loops of the source are methods with loop invariants, proved
  against a specification function:
  - the map's `constructions.forEach(...)`, whose early `return`s skip an
    element, and whose exception halts the page script;
  - the task's `for...of` over saved addresses, where any exception ends
    the task with `Failed`.
  The lookup filled with `forEach` and `Map.set` is a method as well.
- The `map`/`filter` chains are functions. `filter` keeps the order of its
  input. `Origins` gives the positions it keeps, so each kept element can be
  traced back to its source record.

### Behaviour worth knowing

- The join tests only that the coordinate strings are truthy. A string that
  does not parse as a number still survives. Its coordinate is whatever
  `toNumber` returns, NaN in JavaScript.
- The map has three icon outcomes, with sidewalk precedence. The sidewalk
  icon and the default icon carry the same emoji in the source, but the
  model keeps them as distinct outcomes.
- The sweep takes the first candidate in list order, not the nearest. It
  keeps no record of earlier runs, so the same construction is announced
  again on every run. The 8 AM gate is commented out at
  `utils/backgroundTasks.ts:24-26`, so the task runs at any hour.
- A failed data-set fetch in the background task is caught. The task then
  returns `Failed` without notifying anyone.
- A route of a single position is not checked by the page. `turf.lineString`
  throws on it before the marker loop, so the script stops with no marker.
- The background task builds the turf point of every saved address before
  it searches, so an address whose coordinates turf rejects ends the task
  with `Failed` even when no construction is upcoming.

## Model

| member | source | states |
|---|---|---|
| `Enrichment.Index` | utils/useHtmlBuilder.ts:24-27 | the lookup as a fold of `Map.set` over the impacts: every key it holds is admitted, and holds one of the impacts, which carries that key |
| `Enrichment.BuildImpactMap` | utils/useHtmlBuilder.ts:24-27 | the in-place `forEach`/`Map.set` loop builds exactly the guarded lookup `Index(impacts, true)` |
| `Enrichment.IndexKeys` | utils/useHtmlBuilder.ts:24-27 | a key is in the lookup iff some impact carries it and, when guarded, it is truthy: falsy `id_request`s are never inserted |
| `Enrichment.IndexLastWins` | utils/useHtmlBuilder.ts:24-27 | with duplicate keys the lookup holds the last impact that carries the key |
| `Enrichment.IndexGuard` | utils/backgroundTasks.ts:32-34 | the unguarded lookup of the task differs from the guarded one only on falsy keys: both lookups agree on every truthy key, and the guarded one holds no falsy key |
| `Enrichment.Filter` | utils/useHtmlBuilder.ts:47 | `filter` keeps no more elements than its input, and every kept element satisfies the predicate |
| `Enrichment.FilterMembers` | utils/useHtmlBuilder.ts:47 | an element is kept iff it occurs in the input and satisfies the predicate |
| `Enrichment.Origins` | utils/useHtmlBuilder.ts:47 | the kept positions are positions of the input |
| `Enrichment.FilterByOrigins` | utils/useHtmlBuilder.ts:47 | `filter` takes exactly the satisfying positions, each once, in increasing order, and the k-th kept element is the element at the k-th such position |
| `Enrichment.Join` | utils/useHtmlBuilder.ts:29-47 | the join never yields more records than there are obstructions |
| `Enrichment.JoinBySurvivors` | utils/useHtmlBuilder.ts:29-47 | the join holds one record per obstruction that finds an impact and has both coordinates truthy, in obstruction order, and no others; each record is shaped from that obstruction and its matched impact |
| `MapAnnotation.ToEnriched` | utils/useHtmlBuilder.ts:33-45 | the shape of one enriched construction; stated by `EnrichFields` |
| `MapAnnotation.Enrich` | utils/useHtmlBuilder.ts:29-47 | `enriched`, the join with that shape; stated by `EnrichFields` |
| `MapAnnotation.EnrichFields` | utils/useHtmlBuilder.ts:29-47 | each enriched record descends from a surviving obstruction, in order: `lat`/`lon` are the coercions of its coordinate strings; `footpath`, `bus` and `street` are the impact's sidewalk type, transit type and name; the other fields are copied from the obstruction; an obstruction survives iff the lookup has its `id` and both coordinates are truthy |
| `MapAnnotation.SwapAll` | utils/useHtmlBuilder.ts:59-61 | the route conversion keeps length and order and turns each (lon, lat) into (lat, lon) |
| `MapAnnotation.SwapAllTwice` | utils/useHtmlBuilder.ts:103 | swapping back restores the provider's positions, so the line the page measures against is the provider's (lon, lat) geometry |
| `MapAnnotation.LoadRoute` | utils/useHtmlBuilder.ts:49-65 | the route is empty unless both endpoints are chosen, and stays empty when the request or its parse fails; otherwise it is the swapped geometry |
| `MapAnnotation.IconFor` | utils/useHtmlBuilder.ts:114-116 | the sidewalk icon iff the trimmed `footpath` is `Barré`; else the bus icon iff the trimmed `bus` is `Déplacer`; else the default icon; a missing or null field never matches |
| `MapAnnotation.IconIgnoresPadding` | utils/useHtmlBuilder.ts:115-116 | ECMAScript white space around either impact field, each padded independently of the other, never changes the icon |
| `MapAnnotation.FmtDate` | utils/useHtmlBuilder.ts:118-120 | `—` for a falsy value; otherwise a prefix of the input without `T`, followed in the input by a `T` when shorter, and the whole input when it has no `T` |
| `MapAnnotation.PopupFor` | utils/useHtmlBuilder.ts:122-128 | the popup's sidewalk line is never blank (`footpath || 'Non impacté'`), and each date is shown as the part of the stored date before its first `T` (all of it when it has none), or as `—` when the date is falsy |
| `MapAnnotation.MarkerFor` | utils/useHtmlBuilder.ts:110-130 | a marker sits at `[lat, lon]`, the turf point it was measured at with its axes swapped, with the icon of its impact fields and its popup |
| `MapAnnotation.Markers` | utils/useHtmlBuilder.ts:130 | one marker per shown construction |
| `MapAnnotation.Visited` | utils/useHtmlBuilder.ts:108-131 | the `forEach` over a route line or none: with no line every iteration returns and nothing is shown; no more markers than constructions; every marker is that of a construction whose distance to the line is at most the limit |
| `MapAnnotation.Placed` | utils/useHtmlBuilder.ts:100-131 | an empty route shows nothing and the script goes on; a route `turf.lineString` rejects (one position) stops the script before any marker; every marker is that of a construction near the swapped-back route |
| `MapAnnotation.PlaceMarkers` | utils/useHtmlBuilder.ts:100-131 | building the route line, which stops the script on a route `turf.lineString` rejects, then the marker loop, yields exactly `Placed(...)` |
| `MapAnnotation.MarkAlong` | utils/useHtmlBuilder.ts:108-131 | the `forEach` with its early returns and its stop on an exception of the geometry library yields exactly `Visited(...)` |
| `MapAnnotation.VisitStaysAborted` | utils/useHtmlBuilder.ts:108-111 | once the page script has stopped on an exception, later constructions add nothing |
| `MapAnnotation.PlacedNear` | utils/useHtmlBuilder.ts:100-131 | with a route of at least two positions, the markers are those of the constructions before the first exception whose distance is at most the threshold, taken literally and with the boundary included, in order; the script stops iff an exception occurs |
| `MapAnnotation.VisitedNear` | utils/useHtmlBuilder.ts:108-131 | over a given line, the loop's markers are those of the constructions before the first exception whose distance is at most the limit, in order, and the loop stops iff an exception occurs |
| `MapAnnotation.MarkersAppend` | utils/useHtmlBuilder.ts:108-131 | markers of a concatenation are the concatenation of the markers |
| `MapAnnotation.BuildMap` | utils/useHtmlBuilder.ts:24-131 | nothing is shown until both endpoints are chosen and the route request succeeds; then the markers are those of `Placed` for the enriched constructions and the swapped route |
| `JsString.TrimStart` | utils/useHtmlBuilder.ts:115-116 | the result is a suffix of the input, what it drops is white space, and it starts with no white space |
| `JsString.TrimEnd` | utils/useHtmlBuilder.ts:115-116 | the result is a prefix of the input, what it drops is white space, and it ends with no white space |
| `JsString.Trim` | utils/useHtmlBuilder.ts:115-116 | `trim()` returns a slice of the input whose removed ends are white space, and whose first and last characters are not |
| `JsString.TrimPadded` | utils/useHtmlBuilder.ts:115-116 | padding a string on both sides with white space does not change its trim |
| `JsString.BeforeFirst` | utils/useHtmlBuilder.ts:119 | `split(sep)[0]` is the longest prefix without `sep`: followed by `sep` when shorter than the input, and the whole input when `sep` does not occur |
| `GeofenceSweep.Register` | utils/backgroundTasks.ts:13-22 | registration throws before any platform call iff `ENTRAVES_URL` or `IMPACTS_URL` is falsy, and `ORS_KEY` plays no part; otherwise it requests permissions, then defines the task (line 22), then registers it (lines 77-79) with `minimumInterval` `60 * 60 * 24` as written |
| `GeofenceSweep.ToCandidate` | utils/backgroundTasks.ts:39-44 | the task's shape of a joined record; stated by `CandidatesFromObstructions` |
| `GeofenceSweep.Joined` | utils/backgroundTasks.ts:35-45 | the join with that shape, before the date filter; stated by `CandidatesFromObstructions` |
| `GeofenceSweep.Candidates` | utils/backgroundTasks.ts:35-46 | every candidate starts strictly after `now`, and an invalid date never does |
| `GeofenceSweep.CandidatesFromObstructions` | utils/backgroundTasks.ts:35-46 | the candidates are exactly the obstructions that find an impact, have both coordinates truthy and start strictly after `now`, each once, in obstruction order |
| `GeofenceSweep.FindNear` | utils/backgroundTasks.ts:53-58 | `find` returns the first candidate in list order within 100 m, boundary included, with every earlier one farther; it finds nothing only when all are farther; an exception surfaces at the first candidate whose distance call throws |
| `GeofenceSweep.NotificationFor` | utils/backgroundTasks.ts:60-66 | the title is `Travaux près de ` followed by the address label, and the body starts with the construction's reason |
| `GeofenceSweep.Alerts` | utils/backgroundTasks.ts:51-68 | at most one notification per saved address |
| `GeofenceSweep.AlertsByAddress` | utils/backgroundTasks.ts:51-68 | the k-th notification is for the k-th address with a match, in saved-address order, and names that address and its first near candidate; an address gets one iff it has a match |
| `GeofenceSweep.Swept` | utils/backgroundTasks.ts:51-68 | the loop over the saved addresses, where `turf.point` on an address, the distance call or the notifier may throw: it sends no more notifications than there are addresses, and each names a saved address and a candidate |
| `GeofenceSweep.SweptAgainstAlerts` | utils/backgroundTasks.ts:51-74 | the sweep succeeds iff no address's turn throws, counting `turf.point` on the address before any search; what it hands to the notifier is always a prefix of `Alerts`, and all of it on success |
| `GeofenceSweep.SweptStaysFailed` | utils/backgroundTasks.ts:71-74 | once the task has failed, later addresses change nothing |
| `GeofenceSweep.NotifySaved` | utils/backgroundTasks.ts:51-68 | the `for...of` loop sends, and stops, exactly as `Swept` says |
| `GeofenceSweep.CheckConstructions` | utils/backgroundTasks.ts:22-74 | a failed data-set fetch or a `JSON.parse` that throws gives `Failed` with no notification; a missing saved-address entry gives `Success` with no notification; otherwise the result and the notifications sent are exactly the sweep over the unguarded lookup's candidates, so two runs on the same data and the same `now` send the same notifications |
| `MarkerScript.Enrich` | components/ExternalLink.tsx:65-70 | `enriched`, each survivor with its impact attached; stated by `EnrichTagsLastImpact` |
| `MarkerScript.EnrichTagsLastImpact` | components/ExternalLink.tsx:62-70 | every kept record is a surviving obstruction, unchanged and in obstruction order, with exactly the last impact whose truthy `id_request` equals its `id` |
| `MarkerScript.PopupHtml` | components/ExternalLink.tsx:75-79 | the popup template; stated by `PopupReason`, `PopupImpact` and `PopupStreet` |
| `MarkerScript.PopupReason` | components/ExternalLink.tsx:75-79 | the popup shows the reason category first, in bold |
| `MarkerScript.PopupImpact` | components/ExternalLink.tsx:75-79 | the popup then shows the matched impact's street impact type after `Impact: ` |
| `MarkerScript.PopupStreet` | components/ExternalLink.tsx:75-79 | the popup then shows the impact's street name after `Street: ` |
| `MarkerScript.Snippet` | components/ExternalLink.tsx:80-82 | the marker snippet template; stated by `SnippetLatitude`, `SnippetLongitude` and `SnippetPopup` |
| `MarkerScript.SnippetLatitude` | components/ExternalLink.tsx:80-82 | a marker is placed at `[latitude, longitude]`: the latitude comes right after `L.marker([` |
| `MarkerScript.SnippetLongitude` | components/ExternalLink.tsx:80-82 | the longitude comes second, after `, ` |
| `MarkerScript.SnippetPopup` | components/ExternalLink.tsx:80-82 | the popup text is bound right after the coordinates |
| `MarkerScript.JoinLines` | components/ExternalLink.tsx:84 | `join(sep)`; stated by `JoinLength`, `JoinParts` and `JoinSeps` |
| `MarkerScript.JoinLength` | components/ExternalLink.tsx:84 | the joined text is as long as its parts plus one separator between each two |
| `MarkerScript.JoinParts` | components/ExternalLink.tsx:84 | `join(sep)` holds every part at its offset, in order |
| `MarkerScript.JoinSeps` | components/ExternalLink.tsx:84 | `join(sep)` holds the separator right after every part but the last |
| `MarkerScript.Snippets` | components/ExternalLink.tsx:72-83 | one snippet per enriched record |
| `MarkerScript.MarkersJs` | components/ExternalLink.tsx:72-84 | `markersJS`, the snippets joined by line feeds; stated by `MarkersJsLayout` |
| `MarkerScript.MarkersJsLayout` | components/ExternalLink.tsx:72-84 | `markersJS` is empty when there is no record; otherwise it holds exactly one snippet per record, in record order, with a line feed between two consecutive snippets and nothing else |
| `MarkerScript.BuildMarkersJs` | components/ExternalLink.tsx:62-84 | the page's script text is `markersJS` of the join over the guarded lookup filled in place |

## Left out

- Geometry: `turf.pointToLineDistance` and `turf.distance` are floating-point library code. They are parameters, so no distance is computed. The model assumes a call never returns NaN: the library throws on non-numeric coordinates.
- The network: the fetch of the data sets, the directions request and its URL, and the `result.records` envelopes are inputs. Their failures are `None`.
- Rendering: the HTML page, the Leaflet tiles, the route polyline and the WebView are left out. So is the JSON serialisation of the constructions and of the route into the page, including `JSON.stringify` turning NaN into `null`. `components/MapWebView.tsx` repeats the axis swap of `SwapAll`.
- Persistence: the SQL store and AsyncStorage are left out. The `SAVED_ADDRS` entry the task reads is an input, `savedJson`. `services/addressService.ts` stores addresses in SQLite, not under that key, and none of the files modelled here writes it, so the order of an entry's coordinates is not fixed by the code; the model measures from `coords` as given. While nothing writes the key the entry is absent, and the task returns `Success` and sends nothing (the `!Truthy(savedJson)` case of `CheckConstructions`). A rejected storage read is not modelled separately; it ends the task like every other exception.
- Platform services: the notification permission, the task manager and the scheduler are left out, apart from the order of the calls `Register` makes.
- GeofenceSweep.Register: keeps the `minimumInterval` value `60 * 60 * 24` as written. Its unit is the one `expo-background-task` defines, and that library is not part of this model; the interval is only a lower bound, and when the task actually runs is the operating system's decision.
- MapAnnotation.PopupFor: the popup's HTML, its labels and emoji, and the order of its lines are left out as rendering. The model keeps which values the popup shows.
- Date and number parsing: `new Date(...)`, `toLocaleDateString` and unary `+` are parameters.
- GeofenceSweep.CheckConstructions: reads the clock once, as `now`, while the source calls `new Date()` again for every candidate. A start date that falls within the few milliseconds the filter takes can therefore be upcoming in the model and past in the source.
- Logging: the `console.warn` calls on a failed route request (utils/useHtmlBuilder.ts:63) and in the task's `catch` (utils/backgroundTasks.ts:72) are left out; they change no result.
- Concurrency and reactivity: the React effect's re-runs, `setHtml`, the loading flag and the `Promise.all` are left out.
- GeofenceSweep.NotificationFor: states the title and the start of the body. The rest of the body is the date text from `formatDate`.
- A field whose value is neither a string, `null` nor `undefined` (a number in the JSON, say) is not modelled.
- Strings are sequences of Unicode scalar values, not UTF-16 code units.
- MarkerScript.Enrich: `{ ...e, impact }` would overwrite an existing `impact` key of the obstruction; the model keeps the obstruction and its impact side by side.
- MapAnnotation.PlaceMarkers: a turf exception ends the page script's loop. The browser's error handling around it is not modelled.
- Saved addresses are taken as already parsed. A parsed `JSON` value that is not a list of `{ label, coords }`, so that `for...of` or `addr.coords[0]` throws, is not modelled.
