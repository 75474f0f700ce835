# WeatherSizzler fetch coordination, modelled in Dafny

WeatherSizzler shows the current weather for a city name or for the device's
location. Its one piece of real logic is the `WeatherContext`: the shared state
the views observe (`searchText`, `weather`, `coordinateRegion`) and the two fetch
paths that write it.

- **Search fetches** coalesce. A search intent always records its text. It then
  starts a fetch, or, while a fetch is in flight, only raises the boolean
  `_shouldDoAdditionalSearchFetch`. When the fetch ends, on success or failure,
  `isDoingSearchFetch` is cleared. If a retrigger is owed, it is cleared and a
  new fetch starts with the text current at that moment.
- **Location fetches** raise `isDoingGeoFetch` when they start and lower it when
  they end, on both paths. Nothing reads the flag.
- **Publication** (`set(weather:)`) replaces the record wholesale. It centres the
  map region on the record's coordinates with a fixed 0.0225-degree span.
- **Records** are a field projection of the decoded service reply plus an icon.
  The icon is the first one whose download succeeds, in the order of the reply's
  condition list, or the bundled `icon_demo`.

Files:

- `wrappers.dfy`: `Option`.
- `weather.dfy` (module `WeatherModel`): the reply and the record, the
  projection, and its inverse.
- `network.dfy` (module `Network`): icon addresses, the icon choice as a
  specification, and the choosing loop as a method proved against it.
- `search_coordinator.dfy` (module `SearchCoordinator`): the search coordinator
  as a state machine. It has the intent and completion steps, its invariant,
  and lemmas over whole runs of events.
- `weather_context.dfy` (module `Context`): the class `WeatherContext`. Its
  fields are the source's fields plus one ghost field, `searchQuery`: the query
  of the most recently started search fetch, which the source holds only in the
  suspended call. Its methods are proved to move the search
  state exactly as `SearchCoordinator` says and to publish records as
  `set(weather:)` does.

The `await` on the network call is the only place where work interleaves. So
each search fetch is split into two methods: the intent that may start it
(`UpdateSearchTextIntent`), and its completion (`SearchCompleted`). The
completion receives the network result as a parameter. The source retriggers by
calling the intent function again from inside itself. The model does the same:
`SearchCompleted` calls `UpdateSearchTextIntent` after the in-flight flag has
been cleared.

On the network side, the decoded reply and the outcome of each icon download
are parameters. `outcomes[i]` is what downloading the icon of the i-th
condition entry yields.

## Model

| member | source | states |
|---|---|---|
| WeatherModel.FromResponse | WeatherSizzler/Weather.swift:11-34 | id is 0; city is the reply's name; lat/lon come from coord.lat/coord.lon, not swapped; temp, pressure and humidity come from main; windSpeed/windDeg come from wind.speed/deg; visibility is the top-level field; icon is exactly the argument |
| WeatherModel.ResponseRoundTrip | WeatherSizzler/Weather.swift:23-34 | rebuilding the reply from the record, with the reply's condition list, gives the reply back, so no field is lost or swapped |
| WeatherModel.WeatherRoundTrip | WeatherSizzler/Weather.swift:12-34 | every record with id 0 is the projection of some reply with its own icon |
| WeatherModel.FromResponseEqual | WeatherSizzler/WeatherResponse.swift:11-37 | two projections are equal exactly when the icons are equal and the replies agree on every field except the condition list |
| Network.IconUrl | WeatherSizzler/NetworkUtility.swift:56 | the icon address is the prefix "https://openweathermap.org/img/wn/", then the name, then "@2x.png", with the length adding up |
| Network.IconName | WeatherSizzler/NetworkUtility.swift:56 | a name is read back exactly from addresses that have the icon prefix and suffix |
| Network.IconUrlRoundTrip | WeatherSizzler/NetworkUtility.swift:56 | reading the name back from an icon address gives the name it was built from |
| Network.IconNameRoundTrip | WeatherSizzler/NetworkUtility.swift:56 | every address of the icon shape is the address of the name read from it, so the address format is a bijection |
| Network.IconUrls | WeatherSizzler/NetworkUtility.swift:41-43 | one address per condition entry, in list order |
| Network.FirstSuccess | WeatherSizzler/NetworkUtility.swift:41-47 | the position of the first successful download: every download before it failed, and it succeeded unless it is past the end |
| Network.FirstDownloadWins | WeatherSizzler/NetworkUtility.swift:41-47 | a success at position k after only failures gives the icon from download k, and exactly k+1 downloads are made |
| Network.PlaceholderIffAllFail | WeatherSizzler/NetworkUtility.swift:49-51 | the placeholder "icon_demo" is used exactly when every download fails, an empty list included; then every entry was tried |
| Network.WeatherWithIcon | WeatherSizzler/NetworkUtility.swift:39-53 | the record is the projection of the reply with the first successful icon or the placeholder; the addresses requested are those of the entries up to the first success, in order |
| Network.DownloadWeather | WeatherSizzler/NetworkUtility.swift:24-37 | a failed transfer or decode yields no record and no icon request; a decoded reply yields the record of WeatherWithIcon |
| SearchCoordinator.SubmitIntent | WeatherSizzler/WeatherContext.swift:36-42 | the text is always recorded; while a fetch is in flight nothing starts, the pending flag is raised and the in-flight query is kept; otherwise a fetch starts for the text and the pending flag is left as it was; the invariant holds afterwards from any state |
| SearchCoordinator.FinishFetch | WeatherSizzler/WeatherContext.swift:44-54 | the result keeps the text and clears the pending flag; a fetch is restarted, with the current text, exactly when a retrigger was owed; the slot is busy afterwards only because of that restart; the invariant is kept |
| SearchCoordinator.RunValid | WeatherSizzler/WeatherContext.swift:34-55 | every run of intents and completions keeps the invariant: a retrigger is owed only while fetching, and when none is owed the latest query is the current text |
| SearchCoordinator.RunText | WeatherSizzler/WeatherContext.swift:37 | after any run the search text is the text of the last intent, or unchanged if there was none |
| SearchCoordinator.RunQuery | WeatherSizzler/WeatherContext.swift:42-45 | the recorded query is that of the last fetch the run started |
| SearchCoordinator.RunStarts | WeatherSizzler/WeatherContext.swift:38-53 | a run that holds an intent, or starts with a retrigger owed, and ends idle has started at least one fetch, so the last intent is always served |
| SearchCoordinator.ConvergesToLatest | WeatherSizzler/WeatherContext.swift:51-54 | once a run ends idle, the latest fetch queried the last text submitted (the current text if none was); if the run holds an intent or begins with a retrigger owed, that fetch is the last one the run started |
| SearchCoordinator.InFlightCount | WeatherSizzler/WeatherContext.swift:34-50 | fetches started, plus the one in flight before, minus completions, equals the 0/1 in-flight flag afterwards, so at most one search fetch is ever in flight |
| SearchCoordinator.IntentsCollapse | WeatherSizzler/WeatherContext.swift:35-41 | any non-empty series of intents during one fetch starts nothing and leaves exactly one owed retrigger; the completion then starts exactly one fetch, for the last text |
| Context.RegionFor | WeatherSizzler/WeatherContext.swift:75-80 | the region is centred on (lat, lon) of the record with a span of 0.0225 degrees in both axes |
| Context.RegionForEqual | WeatherSizzler/WeatherContext.swift:75-80 | two records give the same region exactly when their latitudes and longitudes are equal |
| Context.WeatherContext.constructor | WeatherSizzler/WeatherContext.swift:13-25 | the text starts as "El Segundo", there is no record, the region is the default one, the location flag is down, the initial intent has started one fetch, for "El Segundo", and the class invariant (search invariant plus region derived from the record) holds |
| Context.WeatherContext.UpdateSearchTextIntent | WeatherSizzler/WeatherContext.swift:36-42 | the search fields move exactly as SubmitIntent says, the query started is reported, the class invariant holds, and the record, region and location flag are unchanged |
| Context.WeatherContext.SearchCompleted | WeatherSizzler/WeatherContext.swift:44-54 | a success publishes the record and its region, a failure leaves both unchanged; the search fields move exactly as FinishFetch says, so the flag is cleared before the retrigger decision; the location flag is unchanged; the class invariant, including the region being derived from the record, is kept |
| Context.WeatherContext.UpdateLocation | WeatherSizzler/WeatherContext.swift:58-62 | the location flag is raised and a fetch is requested for exactly the given coordinates, with no suppression; nothing else can change, so the class invariant is kept |
| Context.WeatherContext.GeoCompleted | WeatherSizzler/WeatherContext.swift:60-70 | the location flag is lowered on both paths; a success publishes the record and its region, a failure leaves them; the search state cannot change; the class invariant is kept |
| Context.WeatherContext.SetWeather | WeatherSizzler/WeatherContext.swift:73-81 | the record is replaced wholesale and the region becomes RegionFor of it; no other field can change, and afterwards the region is the one derived from the record shown |

The class invariant `Valid()` has two parts: the search invariant of
`SearchCoordinator`, and `Published()`. `Published()` says the map region is the
default one until a record has been published, and after that the region of the
record shown.

`Context.SearchFetchScenario` is a client that runs one search fetch end to end.
The reply and the icon downloads go through `Network.DownloadWeather`, and
`SearchCompleted` publishes exactly the projected record, whose id is 0.
`Context.ConvergenceScenario` is a client of the class. It shows that intents
"A", "B" and "C" arriving during the initial fetch lead to exactly one further
fetch, for "C", and that a record returned for it is what is shown.

Two facts about the code shape the model:

- The code never reads `isDoingGeoFetch`: every location callback starts a
  fetch, and the first completion lowers the flag even while another location
  fetch runs. `UpdateLocation` and `GeoCompleted` model exactly that.
- The default region is built from distances of 0.0225 *meters* around (0, 0)
  (WeatherSizzler/WeatherContext.swift:15), while `set(weather:)` uses a span
  of 0.0225 *degrees*. The model keeps the two apart: `Extent.Meters` and
  `Extent.Degrees`.

## Left out

- The numeric formatters (`humidityString`, `temperatureString` and the rest)
  and `kelvinToCelsius`, WeatherSizzler/WeatherContext.swift:84-112: they are
  floating-point arithmetic and `%.2f` formatting. Coordinates and readings are
  opaque `real` values that the model only moves around.
- Swift concurrency: actor and `@MainActor` isolation, `Task` spawning and
  `await` suspension. Each fetch is modelled as a start step and a completion
  step that run one after the other.
- `Context.WeatherContext.constructor`: the source defers the initial intent to
  a `Task`. The model issues it inside the constructor, before any other intent.
- `requestLocation` (register as delegate, then ask the location provider) and
  `locationFailed` (which does nothing) change none of the context's state. The
  location provider and its permission flow (LocationUtility.swift) are not part
  of this model. `locationReceived` is modelled as the call to `UpdateLocation`.
- `Context.WeatherContext.UpdateLocation`: the coordinates arrive as `Float`
  values converted from `Double`. The model does not capture that narrowing.
- The weather request addresses in `downloadWeather(q:)` and
  `downloadWeather(lat:lon:)`: they use percent-encoding, a library call, and
  float-to-text interpolation. The transfer (`URLSession`), JSON decoding and
  `UIImage` decoding are foreign calls. `Network.DownloadWeather` takes their
  combined outcome as a parameter.
- Change notification to observers (`@Published` / `ObservableObject`): it is a
  framework mechanism. The model exposes the published fields directly.
- Logging of errors (`print`) on failed fetches and downloads.
- The force-unwrap of the bundled placeholder image: the model assumes the
  asset `icon_demo` is always present, so that crash path is not modelled.
- The `preview` sample fixtures and all views, view controllers and scene
  wiring: they are sample data and UI.
