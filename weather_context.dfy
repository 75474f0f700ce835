/**
 * The weather context: the single piece of shared state the views observe
 * (search text, current record, map region) and the two fetch paths that
 * write it. The search path is the coalescing coordinator of
 * `SearchCoordinator`, split into the intent and the completion of the fetch;
 * the location path raises its flag when a fetch starts and lowers it when the
 * fetch ends. Everything runs on one execution context, so each method below
 * is one uninterrupted step between two network suspensions.
 */
module Context {
  import opened Wrappers
  import opened WeatherModel
  import opened SearchCoordinator
  import Network

  datatype Coordinate = Coordinate(latitude: real, longitude: real)

  /**
   * The size of a map region: a span in degrees, or distances in meters that
   * the map framework converts to a span itself.
   */
  datatype Extent = Degrees(latitudeDelta: real, longitudeDelta: real)
                  | Meters(latitudinal: real, longitudinal: real)

  datatype Region = Region(center: Coordinate, extent: Extent)

  /** The span, in degrees and in both axes, of the region shown around a record. */
  const RegionSpan: real := 0.0225

  const DefaultSearchText: string := "El Segundo"

  /** The region shown before any record has arrived. */
  const DefaultRegion: Region := Region(Coordinate(0.0, 0.0), Meters(0.0225, 0.0225))

  /** The map region shown for a record. */
  function RegionFor(w: Weather): (r: Region)
    ensures r.center == Coordinate(w.lat, w.lon)
    ensures r.extent == Degrees(RegionSpan, RegionSpan)
  {
    Region(Coordinate(w.lat, w.lon), Degrees(RegionSpan, RegionSpan))
  }

  /** The region depends on the record's coordinates only, and on both of them. */
  lemma RegionForEqual(w1: Weather, w2: Weather)
    ensures RegionFor(w1) == RegionFor(w2) <==> w1.lat == w2.lat && w1.lon == w2.lon
  {
  }

  class WeatherContext {
    var searchText: string
    var weather: Option<Weather>
    var coordinateRegion: Region

    var isDoingSearchFetch: bool
    var shouldDoAdditionalSearchFetch: bool
    /** The query of the most recently started search fetch. */
    ghost var searchQuery: string

    var isDoingGeoFetch: bool

    /** The search coordinator's state held in this object's fields. */
    ghost function Search(): SearchState
      reads this
    {
      SearchState(searchText, isDoingSearchFetch, shouldDoAdditionalSearchFetch, searchQuery)
    }

    /**
     * The map region is derived from the record: the default region until a
     * record has been published, then the region of the record shown.
     */
    ghost predicate Published()
      reads this
    {
      (weather.None? ==> coordinateRegion == DefaultRegion)
      && (weather.Some? ==> coordinateRegion == RegionFor(weather.value))
    }

    ghost predicate Valid()
      reads this
    {
      SearchCoordinator.Valid(Search()) && Published()
    }

    /**
     * Starts with the default text and no record, and issues the search
     * intent for the default text, which starts the first fetch.
     */
    constructor ()
      ensures Valid()
      ensures searchText == DefaultSearchText && weather == None
      ensures coordinateRegion == DefaultRegion
      ensures isDoingSearchFetch && !shouldDoAdditionalSearchFetch && searchQuery == DefaultSearchText
      ensures !isDoingGeoFetch
    {
      searchText := DefaultSearchText;
      weather := None;
      coordinateRegion := DefaultRegion;
      isDoingSearchFetch := false;
      shouldDoAdditionalSearchFetch := false;
      searchQuery := DefaultSearchText;
      isDoingGeoFetch := false;
      new;
      var started := UpdateSearchTextIntent(searchText);
    }

    /**
     * The user's search text changed: records it, then starts a fetch for it
     * (returning its query) unless one is in flight, in which case it only owes
     * a retrigger.
     */
    method UpdateSearchTextIntent(text: string) returns (started: Option<string>)
      requires Published()
      modifies this
      ensures Valid()
      ensures Step(Search(), started) == SubmitIntent(old(Search()), text)
      ensures weather == old(weather) && coordinateRegion == old(coordinateRegion)
      ensures isDoingGeoFetch == old(isDoingGeoFetch)
    {
      searchText := text;
      if isDoingSearchFetch {
        shouldDoAdditionalSearchFetch := true;
        return None;
      }
      isDoingSearchFetch := true;
      searchQuery := text;
      started := Some(text);
    }

    /**
     * The search fetch in flight finished with `result` (`None` for a failure):
     * publishes a record, clears the in-flight flag and, if a retrigger is owed,
     * starts it with the current text (returning its query).
     */
    method SearchCompleted(result: Option<Weather>) returns (restarted: Option<string>)
      requires Valid() && isDoingSearchFetch
      modifies this
      ensures Valid()
      ensures Step(Search(), restarted) == FinishFetch(old(Search()))
      ensures weather == (if result.Some? then result else old(weather))
      ensures coordinateRegion == (if result.Some? then RegionFor(result.value) else old(coordinateRegion))
      ensures isDoingGeoFetch == old(isDoingGeoFetch)
    {
      if result.Some? {
        SetWeather(result.value);
      }
      isDoingSearchFetch := false;
      restarted := None;
      if shouldDoAdditionalSearchFetch {
        shouldDoAdditionalSearchFetch := false;
        restarted := UpdateSearchTextIntent(searchText);
      }
    }

    /** A location arrived: raises the location flag and starts a fetch for those coordinates. */
    method UpdateLocation(lat: real, lon: real) returns (request: Coordinate)
      requires Valid()
      modifies this`isDoingGeoFetch
      ensures Valid()
      ensures isDoingGeoFetch
      ensures request == Coordinate(lat, lon)
    {
      isDoingGeoFetch := true;
      request := Coordinate(lat, lon);
    }

    /**
     * A location fetch finished with `result` (`None` for a failure): publishes
     * a record and lowers the location flag on both paths. The search
     * coordinator's state is untouched.
     */
    method GeoCompleted(result: Option<Weather>)
      requires Valid()
      modifies this`isDoingGeoFetch, this`weather, this`coordinateRegion
      ensures Valid()
      ensures !isDoingGeoFetch
      ensures weather == (if result.Some? then result else old(weather))
      ensures coordinateRegion == (if result.Some? then RegionFor(result.value) else old(coordinateRegion))
    {
      if result.Some? {
        SetWeather(result.value);
      }
      isDoingGeoFetch := false;
    }

    /** Publishes a record: replaces it wholesale and centres the map on it. */
    method SetWeather(w: Weather)
      modifies this`weather, this`coordinateRegion
      ensures Published()
      ensures weather == Some(w)
      ensures coordinateRegion == RegionFor(w)
    {
      weather := Some(w);
      coordinateRegion := RegionFor(w);
    }
  }

  /**
   * A client run of the convergence scenario: while the initial fetch is in
   * flight, intents "A", "B" and "C" follow one another and start nothing; the
   * initial fetch's completion starts exactly one more fetch, for "C", and once
   * that one has completed the record it returned is shown.
   */
  method ConvergenceScenario(initial: Option<Weather>, latest: Weather)
  {
    var ctx := new WeatherContext();
    var s := ctx.UpdateSearchTextIntent("A");
    assert s == None;
    s := ctx.UpdateSearchTextIntent("B");
    assert s == None;
    s := ctx.UpdateSearchTextIntent("C");
    assert s == None && ctx.searchText == "C" && ctx.shouldDoAdditionalSearchFetch;
    s := ctx.SearchCompleted(initial);
    assert s == Some("C") && ctx.isDoingSearchFetch && !ctx.shouldDoAdditionalSearchFetch;
    s := ctx.SearchCompleted(Some(latest));
    assert s == None && !ctx.isDoingSearchFetch;
    assert ctx.weather == Some(latest) && ctx.searchQuery == "C";
  }

  /**
   * A client run of one search fetch end to end: the reply and the icon
   * downloads yield the record, and the completion publishes exactly that
   * record, the projection of the reply with the id 0, centring the map on it.
   */
  method SearchFetchScenario(reply: Option<WeatherResponse>, outcomes: seq<Network.IconDownload>)
    requires reply.Some? ==> |outcomes| == |reply.value.weather|
  {
    var ctx := new WeatherContext();
    var result, requested := Network.DownloadWeather(reply, outcomes);
    var s := ctx.SearchCompleted(result);
    assert s == None && !ctx.isDoingSearchFetch;
    if reply.Some? {
      assert ctx.weather == Some(FromResponse(reply.value, Network.ChosenIcon(outcomes)));
      assert ctx.weather.value.id == 0;
      assert ctx.coordinateRegion.center == Coordinate(reply.value.coord.lat, reply.value.coord.lon);
    } else {
      assert ctx.weather == None && ctx.coordinateRegion == DefaultRegion;
    }
  }
}
