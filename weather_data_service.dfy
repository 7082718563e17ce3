/**
  WeatherDataService: weather for today (always from the remote API) and
  for a past date (from the weather_data table, else from the remote API,
  then saved), and the translation of the provider's payload into a
  WeatherData record.

  As for the location service, pure functions specify each operation on
  the value of the stores (the location cache and table, and the weather
  table), and the class WeatherDataService is proved against them.
*/
module WeatherDataServices {
  import opened Wrappers
  import opened LocalDates
  import opened Models
  import opened PincodeLocations

  /**
    java.util.Calendar.HOUR_OF_DAY. This is the number Calendar gives the
    hour-of-day FIELD, not the current hour, so the translation always reads
    hourly slot HourIndex = 10, whatever the time of day or the date.
  */
  const HourOfDayField: int := 11
  const HourIndex: int := HourOfDayField - 1

  /** The "current" object of the live-weather body. */
  datatype CurrentSection = CurrentSection(time: Date, temperature: Double, windSpeed: Double)

  /**
    The "hourly" object: one array per measured quantity. An absent array,
    or an absent "hourly" object, is the empty sequence: reading a slot of
    either fails the same way.
  */
  datatype HourlySection = HourlySection(
    time: seq<Date>,
    temperature: seq<Double>,
    humidity: seq<int>,
    windSpeed: seq<Double>)

  /** A weather body with its numbers and dates already read. */
  datatype WeatherPayload = WeatherPayload(current: Option<CurrentSection>, hourly: HourlySection)

  /**
    What a weather call yields: a body, a null body, an HTTP 4xx whose JSON
    error body is given raw and with its "reason" field, a 4xx whose body is
    not JSON, or a 5xx reply or I/O failure.
  */
  datatype WeatherReply =
    | WeatherBody(payload: WeatherPayload)
    | WeatherNullBody
    | WeatherClientError(body: string, reason: string)
    | WeatherUnreadableClientError
    | WeatherServerOrIoFailure

  /** Whether every slot the translation reads is present. */
  predicate HasHourSlot(p: WeatherPayload) {
    if p.current.Some? then HourIndex < |p.hourly.humidity|
    else
      && HourIndex < |p.hourly.time|
      && HourIndex < |p.hourly.temperature|
      && HourIndex < |p.hourly.humidity|
      && HourIndex < |p.hourly.windSpeed|
  }

  /**
    jsonToWeatherData: with a "current" object, date, temperature and wind
    speed come from it and humidity from hourly slot HourIndex; without
    one, all four come from hourly slot HourIndex. Coordinates are left
    null for the caller to fill in.
  */
  function JsonToWeatherData(p: WeatherPayload): (r: Result<WeatherData, Failure>)
    ensures r.Ok? <==> HasHourSlot(p)
    ensures r.Err? ==> r.error == MissingPayloadField
    ensures r.Ok? ==> r.value.latitude.None? && r.value.longitude.None?
    ensures r.Ok? ==> r.value.humidity == Some(p.hourly.humidity[HourIndex])
  {
    match p.current
    case Some(c) =>
      if HourIndex < |p.hourly.humidity| then
        Ok(WeatherData(None, None, Some(c.time), Some(c.temperature), Some(p.hourly.humidity[HourIndex]), Some(c.windSpeed)))
      else Err(MissingPayloadField)
    case None =>
      var h := p.hourly;
      if HourIndex < |h.time| && HourIndex < |h.temperature| && HourIndex < |h.humidity| && HourIndex < |h.windSpeed| then
        Ok(WeatherData(None, None, Some(h.time[HourIndex]), Some(h.temperature[HourIndex]),
                       Some(h.humidity[HourIndex]), Some(h.windSpeed[HourIndex])))
      else Err(MissingPayloadField)
  }

  /** With a "current" object, only its values and the humidity at slot HourIndex reach the record. */
  lemma TranslateWithCurrent(p: WeatherPayload)
    requires p.current.Some? && HourIndex < |p.hourly.humidity|
    ensures var c := p.current.value;
      JsonToWeatherData(p) == Ok(WeatherData(None, None, Some(c.time), Some(c.temperature),
                                             Some(p.hourly.humidity[HourIndex]), Some(c.windSpeed)))
  {
  }

  /** Without a "current" object, every field comes from the same hourly slot HourIndex. */
  lemma TranslateHourlyOnly(p: WeatherPayload)
    requires p.current.None? && HasHourSlot(p)
    ensures var h := p.hourly;
      JsonToWeatherData(p) == Ok(WeatherData(None, None, Some(h.time[HourIndex]), Some(h.temperature[HourIndex]),
                                             Some(h.humidity[HourIndex]), Some(h.windSpeed[HourIndex])))
  {
  }

  /** Two hourly sections that have the same slots present and agree at slot HourIndex. */
  predicate SameAtHourIndex(a: HourlySection, b: HourlySection) {
    && (HourIndex < |a.time| <==> HourIndex < |b.time|)
    && (HourIndex < |a.temperature| <==> HourIndex < |b.temperature|)
    && (HourIndex < |a.humidity| <==> HourIndex < |b.humidity|)
    && (HourIndex < |a.windSpeed| <==> HourIndex < |b.windSpeed|)
    && (HourIndex < |a.time| ==> a.time[HourIndex] == b.time[HourIndex])
    && (HourIndex < |a.temperature| ==> a.temperature[HourIndex] == b.temperature[HourIndex])
    && (HourIndex < |a.humidity| ==> a.humidity[HourIndex] == b.humidity[HourIndex])
    && (HourIndex < |a.windSpeed| ==> a.windSpeed[HourIndex] == b.windSpeed[HourIndex])
  }

  /** The translation samples a single fixed hour: no other hourly value can change its result. */
  lemma TranslateSamplesOneHour(p: WeatherPayload, q: WeatherPayload)
    requires p.current == q.current && SameAtHourIndex(p.hourly, q.hourly)
    ensures JsonToWeatherData(p) == JsonToWeatherData(q)
  {
  }

  /** The live-weather body of the service tests: humidity is the eleventh hourly value, 70. */
  lemma TranslateExample()
    ensures var hum := [50, 52, 54, 56, 58, 60, 62, 64, 66, 68, 70, 72, 74, 76, 78, 80, 82, 84, 86, 88, 90, 92, 94, 96];
      var p := WeatherPayload(Some(CurrentSection(Date(2025, 3, 25), 25.5, 5.0)), HourlySection([], [], hum, []));
      JsonToWeatherData(p) == Ok(WeatherData(None, None, Some(Date(2025, 3, 25)), Some(25.5), Some(70), Some(5.0)))
  {
  }

  /** The translated record with the resolved location's coordinates copied in. */
  function WithCoordinates(w: WeatherData, loc: PincodeLocation): (r: WeatherData)
    ensures r.latitude == loc.latitude && r.longitude == loc.longitude
    ensures r.date == w.date && r.temperature == w.temperature
    ensures r.humidity == w.humidity && r.windSpeed == w.windSpeed
  {
    w.(latitude := loc.latitude, longitude := loc.longitude)
  }

  /** getCurrentWeather after the location is resolved: the raw error body, a null body, or the translated record. */
  function FetchCurrentWeather(loc: PincodeLocation, today: Date, reply: WeatherReply): Result<WeatherData, Failure> {
    match reply
    case WeatherClientError(body, _) => Err(IllegalArgument(body))
    case WeatherUnreadableClientError => Err(MalformedErrorBody)
    case WeatherServerOrIoFailure => Err(RemoteFailure)
    case WeatherNullBody => Err(NoCurrentWeatherResponse(loc.latitude, loc.longitude, today))
    case WeatherBody(p) =>
      match JsonToWeatherData(p)
      case Err(e) => Err(e)
      case Ok(w) => Ok(WithCoordinates(w, loc))
  }

  /** getOldWeather's remote step: the error body's "reason", a null body, or the translated record. */
  function FetchOldWeather(loc: PincodeLocation, date: Date, reply: WeatherReply): Result<WeatherData, Failure> {
    match reply
    case WeatherClientError(_, reason) => Err(IllegalArgument(reason))
    case WeatherUnreadableClientError => Err(MalformedErrorBody)
    case WeatherServerOrIoFailure => Err(RemoteFailure)
    case WeatherNullBody => Err(NoOldWeatherResponse(loc.latitude, loc.longitude, date))
    case WeatherBody(p) =>
      match JsonToWeatherData(p)
      case Err(e) => Err(e)
      case Ok(w) => Ok(WithCoordinates(w, loc))
  }

  /** The key findByLatitudeAndLongitudeAndDate matches rows on. */
  predicate Matches(w: WeatherData, lat: Option<Double>, lon: Option<Double>, date: Date) {
    w.latitude == lat && w.longitude == lon && w.date == Some(date)
  }

  /**
    The row findByLatitudeAndLongitudeAndDate finds: the first matching row,
    or none. (Several matching rows make the repository throw; that is not
    modelled.)
  */
  function FindWeather(store: seq<WeatherData>, lat: Option<Double>, lon: Option<Double>, date: Date): (r: Option<nat>)
    ensures r.None? <==> forall i :: 0 <= i < |store| ==> !Matches(store[i], lat, lon, date)
    ensures r.Some? ==> r.value < |store| && Matches(store[r.value], lat, lon, date)
    ensures r.Some? ==> forall j :: 0 <= j < r.value ==> !Matches(store[j], lat, lon, date)
  {
    if |store| == 0 then None
    else if Matches(store[0], lat, lon, date) then Some(0)
    else match FindWeather(store[1..], lat, lon, date)
      case None => None
      case Some(i) => Some(i + 1)
  }

  /** The row findByLatitudeAndLongitudeAndDate returns, as a value. */
  function LookupWeather(store: seq<WeatherData>, lat: Option<Double>, lon: Option<Double>, date: Date): (r: Option<WeatherData>)
    ensures r.Some? ==> r.value in store && Matches(r.value, lat, lon, date)
    ensures r.None? <==> forall i :: 0 <= i < |store| ==> !Matches(store[i], lat, lon, date)
  {
    match FindWeather(store, lat, lon, date)
    case None => None
    case Some(i) => Some(store[i])
  }

  /** What a weather request returns, and the location stores and weather table it leaves behind. */
  datatype WeatherOutcome = WeatherOutcome(result: Result<WeatherData, Failure>, db: LocationDb, store: seq<WeatherData>)

  /** What a live-weather request returns, and the location stores it leaves behind. */
  datatype LiveOutcome = LiveOutcome(result: Result<WeatherData, Failure>, db: LocationDb)

  /** getCurrentWeather: resolve the location, then call the live API. The weather table is not an input. */
  function CurrentWeather(db: LocationDb, pincode: string, today: Date, geo: GeoReply, reply: WeatherReply): LiveOutcome {
    var located := Resolve(db, pincode, geo);
    match located.result
    case Err(e) => LiveOutcome(Err(e), located.db)
    case Ok(loc) => LiveOutcome(FetchCurrentWeather(loc, today, reply), located.db)
  }

  /** getOldWeather: resolve the location, then the weather table, then the historical API, whose result is saved. */
  function OldWeather(db: LocationDb, store: seq<WeatherData>, pincode: string, date: Date,
                      geo: GeoReply, reply: WeatherReply): WeatherOutcome
  {
    var located := Resolve(db, pincode, geo);
    match located.result
    case Err(e) => WeatherOutcome(Err(e), located.db, store)
    case Ok(loc) =>
      match LookupWeather(store, loc.latitude, loc.longitude, date)
      case Some(w) => WeatherOutcome(Ok(w), located.db, store)
      case None =>
        match FetchOldWeather(loc, date, reply)
        case Err(e) => WeatherOutcome(Err(e), located.db, store)
        case Ok(w) => WeatherOutcome(Ok(w), located.db, store + [w])
  }

  /** Whether getOldWeather reaches the weather table: the location resolved. */
  predicate ConsultsWeatherTable(db: LocationDb, pincode: string, geo: GeoReply) {
    Resolve(db, pincode, geo).result.Ok?
  }

  /** Whether getOldWeather reaches the historical API: the location resolved and the table had no row. */
  predicate ConsultsHistoricalApi(db: LocationDb, store: seq<WeatherData>, pincode: string, date: Date, geo: GeoReply) {
    var located := Resolve(db, pincode, geo);
    located.result.Ok?
    && LookupWeather(store, located.result.value.latitude, located.result.value.longitude, date).None?
  }

  /** A table hit is returned as stored: no remote call, no save, and the weather reply is irrelevant. */
  lemma OldWeatherTableHit(db: LocationDb, store: seq<WeatherData>, pincode: string, date: Date,
                           geo: GeoReply, reply: WeatherReply, other: WeatherReply)
    requires ConsultsWeatherTable(db, pincode, geo) && !ConsultsHistoricalApi(db, store, pincode, date, geo)
    ensures var loc := Resolve(db, pincode, geo).result.value;
      var w := LookupWeather(store, loc.latitude, loc.longitude, date).value;
      OldWeather(db, store, pincode, date, geo, reply) == WeatherOutcome(Ok(w), Resolve(db, pincode, geo).db, store)
    ensures OldWeather(db, store, pincode, date, geo, reply) == OldWeather(db, store, pincode, date, geo, other)
  {
  }

  /**
    A table miss with a translatable body saves exactly one row, the
    translated record with the location's coordinates, and returns it.
  */
  lemma OldWeatherFromApi(db: LocationDb, store: seq<WeatherData>, pincode: string, date: Date,
                          geo: GeoReply, p: WeatherPayload)
    requires ConsultsHistoricalApi(db, store, pincode, date, geo) && HasHourSlot(p)
    ensures var located := Resolve(db, pincode, geo);
      var w := WithCoordinates(JsonToWeatherData(p).value, located.result.value);
      OldWeather(db, store, pincode, date, geo, WeatherBody(p)) == WeatherOutcome(Ok(w), located.db, store + [w])
  {
  }

  /**
    A historical API error fails with the body's "reason"; an unreadable
    error body, a 5xx reply or an I/O failure propagates unmapped. None of
    them saves a weather row.
  */
  lemma OldWeatherApiError(db: LocationDb, store: seq<WeatherData>, pincode: string, date: Date,
                           geo: GeoReply, body: string, reason: string)
    requires ConsultsHistoricalApi(db, store, pincode, date, geo)
    ensures OldWeather(db, store, pincode, date, geo, WeatherClientError(body, reason))
         == WeatherOutcome(Err(IllegalArgument(reason)), Resolve(db, pincode, geo).db, store)
    ensures OldWeather(db, store, pincode, date, geo, WeatherUnreadableClientError)
         == WeatherOutcome(Err(MalformedErrorBody), Resolve(db, pincode, geo).db, store)
    ensures OldWeather(db, store, pincode, date, geo, WeatherServerOrIoFailure)
         == WeatherOutcome(Err(RemoteFailure), Resolve(db, pincode, geo).db, store)
  {
  }

  /** A null historical body fails with the coordinates and date it asked for, and saves nothing. */
  lemma OldWeatherNullBody(db: LocationDb, store: seq<WeatherData>, pincode: string, date: Date, geo: GeoReply)
    requires ConsultsHistoricalApi(db, store, pincode, date, geo)
    ensures var loc := Resolve(db, pincode, geo).result.value;
      OldWeather(db, store, pincode, date, geo, WeatherNullBody)
        == WeatherOutcome(Err(NoOldWeatherResponse(loc.latitude, loc.longitude, date)), Resolve(db, pincode, geo).db, store)
  {
  }

  /** The weather table only ever grows by the one record a request returns. */
  lemma OldWeatherSavesAtMostOnce(db: LocationDb, store: seq<WeatherData>, pincode: string, date: Date,
                                  geo: GeoReply, reply: WeatherReply)
    ensures var o := OldWeather(db, store, pincode, date, geo, reply);
      o.store == store
      || (ConsultsHistoricalApi(db, store, pincode, date, geo) && o.result.Ok? && o.store == store + [o.result.value])
    ensures OldWeather(db, store, pincode, date, geo, reply).db == Resolve(db, pincode, geo).db
  {
  }

  /** Whatever path it takes, a historical record carries the coordinates of the location the pincode resolved to. */
  lemma OldWeatherCarriesLocation(db: LocationDb, store: seq<WeatherData>, pincode: string, date: Date,
                                  geo: GeoReply, reply: WeatherReply)
    requires OldWeather(db, store, pincode, date, geo, reply).result.Ok?
    ensures var located := Resolve(db, pincode, geo);
      var w := OldWeather(db, store, pincode, date, geo, reply).result.value;
      located.result.Ok? && w.latitude == located.result.value.latitude && w.longitude == located.result.value.longitude
  {
  }

  /** A live record carries the coordinates of the location the pincode resolved to. */
  lemma CurrentWeatherCarriesLocation(db: LocationDb, pincode: string, today: Date, geo: GeoReply, reply: WeatherReply)
    requires CurrentWeather(db, pincode, today, geo, reply).result.Ok?
    ensures var located := Resolve(db, pincode, geo);
      var w := CurrentWeather(db, pincode, today, geo, reply).result.value;
      located.result.Ok? && w.latitude == located.result.value.latitude && w.longitude == located.result.value.longitude
  {
  }

  /**
    Live-weather failures: the raw error body, the coordinates and today's
    date for a null body, and unmapped propagation of an unreadable error
    body, a 5xx reply or an I/O failure.
  */
  lemma CurrentWeatherErrors(db: LocationDb, pincode: string, today: Date, geo: GeoReply, body: string, reason: string)
    requires Resolve(db, pincode, geo).result.Ok?
    ensures var located := Resolve(db, pincode, geo);
      var loc := located.result.value;
      && CurrentWeather(db, pincode, today, geo, WeatherClientError(body, reason)) == LiveOutcome(Err(IllegalArgument(body)), located.db)
      && CurrentWeather(db, pincode, today, geo, WeatherNullBody)
           == LiveOutcome(Err(NoCurrentWeatherResponse(loc.latitude, loc.longitude, today)), located.db)
      && CurrentWeather(db, pincode, today, geo, WeatherUnreadableClientError) == LiveOutcome(Err(MalformedErrorBody), located.db)
      && CurrentWeather(db, pincode, today, geo, WeatherServerOrIoFailure) == LiveOutcome(Err(RemoteFailure), located.db)
  {
  }

  /**
    A failing weather call does not undo the location step before it: the
    resolved location stays cached, and a row saved from the geocoder stays
    in the table.
  */
  lemma WeatherFailureKeepsLocation(db: LocationDb, store: seq<WeatherData>, pincode: string, date: Date, today: Date,
                                    geo: GeoReply, reply: WeatherReply)
    requires Resolve(db, pincode, geo).result.Ok? && !reply.WeatherBody?
    ensures var located := Resolve(db, pincode, geo);
      && CurrentWeather(db, pincode, today, geo, reply).result.Err?
      && CurrentWeather(db, pincode, today, geo, reply).db == located.db
      && OldWeather(db, store, pincode, date, geo, reply).db == located.db
      && CacheKey(pincode) in located.db.cache
      && (ConsultsGeocoder(db, pincode) ==> located.db.store == db.store + [located.result.value])
  {
    ResolveCachesResult(db, pincode, geo);
  }

  /**
    Once a historical record dated on the requested day is returned, asking
    again returns it from the stores: nothing changes and neither remote
    reply matters.
  */
  lemma OldWeatherIdempotent(db: LocationDb, store: seq<WeatherData>, pincode: string, date: Date,
                             geo: GeoReply, reply: WeatherReply, geo2: GeoReply, reply2: WeatherReply)
    requires OldWeather(db, store, pincode, date, geo, reply).result.Ok?
    requires OldWeather(db, store, pincode, date, geo, reply).result.value.date == Some(date)
    ensures var o := OldWeather(db, store, pincode, date, geo, reply);
      OldWeather(o.db, o.store, pincode, date, geo2, reply2) == o
  {
    var o := OldWeather(db, store, pincode, date, geo, reply);
    var located := Resolve(db, pincode, geo);
    ResolveIdempotent(db, pincode, geo, geo2);
    var loc := located.result.value;
    assert Resolve(o.db, pincode, geo2) == located;
    var w := o.result.value;
    OldWeatherCarriesLocation(db, store, pincode, date, geo, reply);
    assert Matches(w, loc.latitude, loc.longitude, date);
    if o.store != store {
      assert o.store == store + [w];
      assert o.store[|store|] == w;
      var hit := LookupWeather(o.store, loc.latitude, loc.longitude, date);
      assert hit.Some?;
      assert hit.value in store || hit.value == w;
    }
  }

  /**
    When the historical body is dated on another day than the one asked
    for, the saved row never matches the request: asking again misses the
    table, calls the API again, and with the same reply saves a second copy.
  */
  lemma OldWeatherRefetchesOtherDay(db: LocationDb, store: seq<WeatherData>, pincode: string, date: Date,
                                    geo: GeoReply, reply: WeatherReply)
    requires ConsultsHistoricalApi(db, store, pincode, date, geo)
    requires OldWeather(db, store, pincode, date, geo, reply).result.Ok?
    requires OldWeather(db, store, pincode, date, geo, reply).result.value.date != Some(date)
    ensures var o := OldWeather(db, store, pincode, date, geo, reply);
      && ConsultsHistoricalApi(o.db, o.store, pincode, date, geo)
      && OldWeather(o.db, o.store, pincode, date, geo, reply) == WeatherOutcome(o.result, o.db, o.store + [o.result.value])
  {
  }

  /**
    The service with the weather_data table as a field and the location
    service it calls. The ghost counters record the calls the tests verify:
    location lookups, table lookups, remote weather calls and saves.
  */
  class WeatherDataService {
    const locations: PincodeLocationService
    var store: seq<WeatherData>
    ghost var locationLookups: nat
    ghost var tableLookups: nat
    ghost var weatherCalls: nat
    ghost var saves: nat

    ghost predicate Valid()
      reads this, locations
    {
      locations.Valid()
    }

    /** The service over the given location service and what the weather table already holds. */
    constructor (locations: PincodeLocationService, initialStore: seq<WeatherData>)
      requires locations.Valid()
      ensures Valid() && this.locations == locations
      ensures store == initialStore
      ensures locationLookups == 0 && tableLookups == 0 && weatherCalls == 0 && saves == 0
    {
      this.locations := locations;
      store := initialStore;
      locationLookups, tableLookups, weatherCalls, saves := 0, 0, 0, 0;
    }

    method CreateOldWeather(w: WeatherData) returns (saved: WeatherData)
      modifies this
      ensures saved == w && store == old(store) + [w]
      ensures saves == old(saves) + 1
      ensures locationLookups == old(locationLookups) && tableLookups == old(tableLookups)
      ensures weatherCalls == old(weatherCalls)
    {
      store := store + [w];
      saves := saves + 1;
      saved := w;
    }

    method GetCurrentWeather(pincode: string, today: Date, geo: GeoReply, reply: WeatherReply)
      returns (r: Result<WeatherData, Failure>)
      requires Valid()
      modifies this, locations
      ensures Valid()
      ensures CurrentWeather(old(locations.Db()), pincode, today, geo, reply) == LiveOutcome(r, locations.Db())
      ensures store == old(store) && tableLookups == old(tableLookups) && saves == old(saves)
      ensures locationLookups == old(locationLookups) + 1
      ensures weatherCalls == old(weatherCalls) + (if Resolve(old(locations.Db()), pincode, geo).result.Ok? then 1 else 0)
      ensures locations.geocoderCalls
           == old(locations.geocoderCalls) + (if ConsultsGeocoder(old(locations.Db()), pincode) then 1 else 0)
    {
      var located := locations.GetPincodeLocation(pincode, geo);
      locationLookups := locationLookups + 1;
      if located.Err? {
        return Err(located.error);
      }
      var loc := located.value;
      weatherCalls := weatherCalls + 1;
      match reply {
        case WeatherClientError(body, _) =>
          return Err(IllegalArgument(body));
        case WeatherUnreadableClientError =>
          return Err(MalformedErrorBody);
        case WeatherServerOrIoFailure =>
          return Err(RemoteFailure);
        case WeatherNullBody =>
          return Err(NoCurrentWeatherResponse(loc.latitude, loc.longitude, today));
        case WeatherBody(p) =>
          var translated := JsonToWeatherData(p);
          if translated.Err? {
            return Err(translated.error);
          }
          var w := translated.value;
          w := w.(latitude := loc.latitude);
          w := w.(longitude := loc.longitude);
          return Ok(w);
      }
    }

    method GetOldWeather(pincode: string, date: Date, geo: GeoReply, reply: WeatherReply)
      returns (r: Result<WeatherData, Failure>)
      requires Valid()
      modifies this, locations
      ensures Valid()
      ensures OldWeather(old(locations.Db()), old(store), pincode, date, geo, reply)
           == WeatherOutcome(r, locations.Db(), store)
      ensures locationLookups == old(locationLookups) + 1
      ensures tableLookups == old(tableLookups) + (if ConsultsWeatherTable(old(locations.Db()), pincode, geo) then 1 else 0)
      ensures weatherCalls
           == old(weatherCalls) + (if ConsultsHistoricalApi(old(locations.Db()), old(store), pincode, date, geo) then 1 else 0)
      ensures saves == old(saves) + (|store| - |old(store)|)
      ensures locations.geocoderCalls
           == old(locations.geocoderCalls) + (if ConsultsGeocoder(old(locations.Db()), pincode) then 1 else 0)
    {
      var located := locations.GetPincodeLocation(pincode, geo);
      locationLookups := locationLookups + 1;
      if located.Err? {
        return Err(located.error);
      }
      var loc := located.value;
      var fromDb := LookupWeather(store, loc.latitude, loc.longitude, date);
      tableLookups := tableLookups + 1;
      if fromDb.Some? {
        return Ok(fromDb.value);
      }
      weatherCalls := weatherCalls + 1;
      match reply {
        case WeatherClientError(_, reason) =>
          return Err(IllegalArgument(reason));
        case WeatherUnreadableClientError =>
          return Err(MalformedErrorBody);
        case WeatherServerOrIoFailure =>
          return Err(RemoteFailure);
        case WeatherNullBody =>
          return Err(NoOldWeatherResponse(loc.latitude, loc.longitude, date));
        case WeatherBody(p) =>
          var translated := JsonToWeatherData(p);
          if translated.Err? {
            return Err(translated.error);
          }
          var w := translated.value;
          w := w.(latitude := loc.latitude);
          w := w.(longitude := loc.longitude);
          var saved := CreateOldWeather(w);
          return Ok(saved);
      }
    }
  }
}
