/**
  PincodeLocationService: resolves a pincode to a location through the
  Redis cache, then the pincode_locations table, then the geocoding API,
  and creates or merges location rows.

  The pure functions below specify each operation on the value of the
  cache and the table (LocationDb); the class PincodeLocationService keeps
  that state in fields and its methods are proved against the functions.
*/
module PincodeLocations {
  import opened Wrappers
  import opened Models

  /** The fields the geocoder's success body carries, already typed. */
  datatype GeoPayload = GeoPayload(zip: string, name: string, lat: Double, lon: Double, country: string)

  /**
    What the geocoding call yields: a body, a null or empty body, an HTTP
    4xx whose JSON error body carries "cod" and "message", a 4xx whose body
    is not JSON, or a 5xx reply or I/O failure.
  */
  datatype GeoReply =
    | GeoBody(payload: GeoPayload)
    | GeoNullBody
    | GeoEmptyBody
    | GeoClientError(cod: int, message: string)
    | GeoUnreadableClientError
    | GeoServerOrIoFailure

  /** The Redis cache (key to location) and the rows of pincode_locations, in insertion order. */
  datatype LocationDb = LocationDb(cache: map<string, PincodeLocation>, store: seq<PincodeLocation>)

  /** What a resolution returns, and the cache and table it leaves behind. */
  datatype Resolution = Resolution(result: Result<PincodeLocation, Failure>, db: LocationDb)

  const KeyPrefix: string := "pincode:"

  /** The Redis key under which a pincode's location is cached. */
  function CacheKey(pincode: string): (key: string)
    ensures |key| == |KeyPrefix| + |pincode|
    ensures key[..|KeyPrefix|] == KeyPrefix && key[|KeyPrefix|..] == pincode
  {
    KeyPrefix + pincode
  }

  /** Distinct pincodes never share a cache entry. */
  lemma CacheKeyInjective(p: string, q: string)
    requires CacheKey(p) == CacheKey(q)
    ensures p == q
  {
    assert p == CacheKey(p)[|KeyPrefix|..];
  }

  /**
    The row findByPincode returns: the first row with that pincode, or none.
    (Several matching rows make the repository throw; that is not modelled.)
  */
  function FindByPincode(store: seq<PincodeLocation>, pincode: string): (r: Option<nat>)
    ensures r.None? <==> forall i :: 0 <= i < |store| ==> store[i].pincode != pincode
    ensures r.Some? ==> r.value < |store| && store[r.value].pincode == pincode
    ensures r.Some? ==> forall j :: 0 <= j < r.value ==> store[j].pincode != pincode
  {
    if |store| == 0 then None
    else if store[0].pincode == pincode then Some(0)
    else match FindByPincode(store[1..], pincode)
      case None => None
      case Some(i) => Some(i + 1)
  }

  /** getPincodeLocationFromDb: the row findByPincode returns, as a value. */
  function LookupByPincode(store: seq<PincodeLocation>, pincode: string): (r: Option<PincodeLocation>)
    ensures r.Some? ==> r.value in store && r.value.pincode == pincode
    ensures r.None? <==> forall i :: 0 <= i < |store| ==> store[i].pincode != pincode
  {
    match FindByPincode(store, pincode)
    case None => None
    case Some(i) => Some(store[i])
  }

  /** The message of the exception a geocoder error body turns into. */
  function GeoErrorMessage(pincode: string, cod: int, message: string): string {
    if cod == 404 then "Pincode: " + pincode + " " + message
    else if cod == 401 then "Invalid API key"
    else message
  }

  /** The location jsonToPincodeLocation builds from a geocoder body, before it is saved. */
  function FromPayload(g: GeoPayload): (loc: PincodeLocation)
    ensures loc.pincode == g.zip && loc.name == Some(g.name) && loc.country == Some(g.country)
    ensures loc.latitude == Some(g.lat) && loc.longitude == Some(g.lon)
  {
    PincodeLocation(g.zip, Some(g.name), Some(g.lat), Some(g.lon), Some(g.country))
  }

  /** getPincodeLocationUsingAPI without its save: the location to store, or the exception. */
  function Geocode(pincode: string, reply: GeoReply): Result<PincodeLocation, Failure> {
    match reply
    case GeoClientError(cod, message) => Err(IllegalArgument(GeoErrorMessage(pincode, cod, message)))
    case GeoUnreadableClientError => Err(MalformedErrorBody)
    case GeoServerOrIoFailure => Err(RemoteFailure)
    case GeoNullBody => Err(IllegalArgument("No response received for pincode: " + pincode))
    case GeoEmptyBody => Err(IllegalArgument("No response received for pincode: " + pincode))
    case GeoBody(g) => Ok(FromPayload(g))
  }

  /**
    The three geocoder error codes the service distinguishes, the empty
    body, an unreadable error body and the failures no handler catches.
  */
  lemma GeocodeErrors(pincode: string, cod: int, message: string)
    ensures Geocode(pincode, GeoClientError(404, message)) == Err(IllegalArgument("Pincode: " + pincode + " " + message))
    ensures Geocode(pincode, GeoClientError(401, message)) == Err(IllegalArgument("Invalid API key"))
    ensures cod != 404 && cod != 401 ==> Geocode(pincode, GeoClientError(cod, message)) == Err(IllegalArgument(message))
    ensures Geocode(pincode, GeoNullBody) == Geocode(pincode, GeoEmptyBody)
         == Err(IllegalArgument("No response received for pincode: " + pincode))
    ensures Geocode(pincode, GeoUnreadableClientError) == Err(MalformedErrorBody)
    ensures Geocode(pincode, GeoServerOrIoFailure) == Err(RemoteFailure)
  {
  }

  /** Whether resolving this pincode reaches the geocoding API: it is in neither the cache nor the table. */
  predicate ConsultsGeocoder(db: LocationDb, pincode: string) {
    CacheKey(pincode) !in db.cache && LookupByPincode(db.store, pincode).None?
  }

  /** getPincodeLocation: cache, then table (which fills the cache), then geocoder (which saves and fills the cache). */
  function Resolve(db: LocationDb, pincode: string, reply: GeoReply): Resolution {
    var key := CacheKey(pincode);
    if key in db.cache then Resolution(Ok(db.cache[key]), db)
    else match LookupByPincode(db.store, pincode)
      case Some(loc) => Resolution(Ok(loc), db.(cache := db.cache[key := loc]))
      case None =>
        match Geocode(pincode, reply)
        case Err(e) => Resolution(Err(e), db)
        case Ok(loc) => Resolution(Ok(loc), LocationDb(db.cache[key := loc], db.store + [loc]))
  }

  /** A cache hit is returned as is; the table and the geocoder are not consulted and nothing changes. */
  lemma ResolveCacheHit(db: LocationDb, pincode: string, reply: GeoReply, other: GeoReply)
    requires CacheKey(pincode) in db.cache
    ensures Resolve(db, pincode, reply) == Resolution(Ok(db.cache[CacheKey(pincode)]), db)
    ensures Resolve(db, pincode, reply) == Resolve(db, pincode, other)
    ensures !ConsultsGeocoder(db, pincode)
  {
  }

  /** A table hit is returned and cached; the table is unchanged and the geocoder's reply is irrelevant. */
  lemma ResolveTableHit(db: LocationDb, pincode: string, reply: GeoReply, other: GeoReply)
    requires CacheKey(pincode) !in db.cache && LookupByPincode(db.store, pincode).Some?
    ensures var loc := LookupByPincode(db.store, pincode).value;
      Resolve(db, pincode, reply) == Resolution(Ok(loc), LocationDb(db.cache[CacheKey(pincode) := loc], db.store))
    ensures Resolve(db, pincode, reply) == Resolve(db, pincode, other)
    ensures !ConsultsGeocoder(db, pincode)
  {
  }

  /**
    A miss in both tiers with a geocoder body appends exactly one row, copied
    from the body, caches it under the requested pincode and returns it.
  */
  lemma ResolveFromGeocoder(db: LocationDb, pincode: string, g: GeoPayload)
    requires ConsultsGeocoder(db, pincode)
    ensures var loc := FromPayload(g);
      Resolve(db, pincode, GeoBody(g)) == Resolution(Ok(loc), LocationDb(db.cache[CacheKey(pincode) := loc], db.store + [loc]))
  {
  }

  /** When the geocoder fails, the exception is the mapped one and neither the cache nor the table changes. */
  lemma ResolveGeocoderFailure(db: LocationDb, pincode: string, reply: GeoReply)
    requires ConsultsGeocoder(db, pincode) && !reply.GeoBody?
    ensures Resolve(db, pincode, reply) == Resolution(Geocode(pincode, reply), db)
    ensures Resolve(db, pincode, reply).result.Err?
  {
  }

  /**
    Every successful resolution leaves its result cached under the requested
    pincode, and the table grows by at most that one row.
  */
  lemma ResolveCachesResult(db: LocationDb, pincode: string, reply: GeoReply)
    ensures var r := Resolve(db, pincode, reply);
      r.result.Ok? ==> CacheKey(pincode) in r.db.cache && r.db.cache[CacheKey(pincode)] == r.result.value
    ensures var r := Resolve(db, pincode, reply);
      r.db.store == db.store || (ConsultsGeocoder(db, pincode) && r.result.Ok? && r.db.store == db.store + [r.result.value])
    ensures var r := Resolve(db, pincode, reply);
      r.result.Err? ==> r.db == db
  {
  }

  /** Resolving the same pincode again returns the same location and changes nothing, whatever the geocoder would say. */
  lemma ResolveIdempotent(db: LocationDb, pincode: string, reply: GeoReply, again: GeoReply)
    requires Resolve(db, pincode, reply).result.Ok?
    ensures var r := Resolve(db, pincode, reply);
      Resolve(r.db, pincode, again) == r
  {
  }

  /** The geocoder scenario of the service tests: pincode 110001 with an empty cache and table. */
  lemma ResolveExample()
    ensures var g := GeoPayload("110001", "Connaught Place", 28.6342, 77.2176, "India");
      var loc := PincodeLocation("110001", Some("Connaught Place"), Some(28.6342), Some(77.2176), Some("India"));
      Resolve(LocationDb(map[], []), "110001", GeoBody(g))
        == Resolution(Ok(loc), LocationDb(map["pincode:110001" := loc], [loc]))
  {
    assert CacheKey("110001") == "pincode:110001";
  }

  /**
    The merge of updatePincodeLocation as written: a non-null name or country
    overwrites the stored one; the stored latitude takes the input's latitude
    and then, if present, the input's LONGITUDE; the stored longitude is never
    written.
  */
  function MergeAsWritten(existing: PincodeLocation, input: PincodeLocation): PincodeLocation {
    var lat1 := if input.latitude.Some? then input.latitude else existing.latitude;
    var lat2 := if input.longitude.Some? then input.longitude else lat1;
    var name := if input.name.Some? then input.name else existing.name;
    var country := if input.country.Some? then input.country else existing.country;
    existing.(latitude := lat2, name := name, country := country)
  }

  /** A field-by-field non-null merge, each input field onto its own counterpart. */
  function MergeFieldwise(existing: PincodeLocation, input: PincodeLocation): PincodeLocation {
    PincodeLocation(
      existing.pincode,
      if input.name.Some? then input.name else existing.name,
      if input.latitude.Some? then input.latitude else existing.latitude,
      if input.longitude.Some? then input.longitude else existing.longitude,
      if input.country.Some? then input.country else existing.country)
  }

  /** What the merge as written does to each field. */
  lemma MergeAsWrittenFields(existing: PincodeLocation, input: PincodeLocation)
    ensures var m := MergeAsWritten(existing, input);
      && m.pincode == existing.pincode
      && m.longitude == existing.longitude
      && m.latitude == (if input.longitude.Some? then input.longitude
                        else if input.latitude.Some? then input.latitude
                        else existing.latitude)
      && m.name == (if input.name.Some? then input.name else existing.name)
      && m.country == (if input.country.Some? then input.country else existing.country)
  {
  }

  /**
    The merge as written agrees with the field-by-field merge exactly when
    the input carries no longitude, or its longitude already equals both the
    stored longitude and the latitude the field-by-field merge would keep.
  */
  lemma MergeAgreesIff(existing: PincodeLocation, input: PincodeLocation)
    ensures MergeAsWritten(existing, input) == MergeFieldwise(existing, input)
      <==> input.longitude.None?
           || (input.longitude == existing.longitude
               && input.longitude == (if input.latitude.Some? then input.latitude else existing.latitude))
  {
  }

  /** The table after updatePincodeLocation, and the record it saved. */
  datatype Saved = Saved(record: PincodeLocation, store: seq<PincodeLocation>)

  /** updatePincodeLocation: create when no row has the pincode, else merge into that row and save it in place. */
  function Update(store: seq<PincodeLocation>, input: PincodeLocation): Saved {
    match FindByPincode(store, input.pincode)
    case None => Saved(input, store + [input])
    case Some(i) => var m := MergeAsWritten(store[i], input); Saved(m, store[i := m])
  }

  /** With no row for the pincode, an update is exactly a create: the input is appended and returned. */
  lemma UpdateWithoutRowCreates(store: seq<PincodeLocation>, input: PincodeLocation)
    requires LookupByPincode(store, input.pincode).None?
    ensures Update(store, input) == Saved(input, store + [input])
  {
  }

  /** With a row for the pincode, only that row changes, to the merge of it and the input; the table keeps its size. */
  lemma UpdateMergesRow(store: seq<PincodeLocation>, input: PincodeLocation, i: nat)
    requires FindByPincode(store, input.pincode) == Some(i)
    ensures var s := Update(store, input);
      && |s.store| == |store|
      && s.record == MergeAsWritten(store[i], input) == s.store[i]
      && s.record.longitude == store[i].longitude
      && forall j :: 0 <= j < |store| && j != i ==> s.store[j] == store[j]
  {
  }

  /**
    The update scenario of the service tests, traced through the merge as
    written: the name is replaced, and the stored latitude becomes the
    input's longitude 77.2176 although the input's latitude is 28.6342.
  */
  lemma UpdateExampleOverwritesLatitude()
    ensures var existing := PincodeLocation("110001", Some("Connaught Place"), Some(28.6342), Some(77.2176), Some("India"));
      var input := PincodeLocation("110001", Some("New Connaught Place"), Some(28.6342), Some(77.2176), Some("India"));
      var s := Update([existing], input);
      && s.record.name == Some("New Connaught Place")
      && s.record.latitude == Some(77.2176)
      && s.record.longitude == Some(77.2176)
      && s.record != MergeFieldwise(existing, input)
  {
  }

  /**
    The service with its two stores as fields. The ghost counters record how
    many rows were saved and how many geocoding calls were made; everStored
    is every location ever written to the table.
  */
  class PincodeLocationService {
    var cache: map<string, PincodeLocation>
    var store: seq<PincodeLocation>
    ghost var saves: nat
    ghost var geocoderCalls: nat
    ghost var everStored: set<PincodeLocation>

    /** Every row, and every location the cache serves, was written to the table at some point. */
    ghost predicate Valid()
      reads this
    {
      && (forall loc :: loc in store ==> loc in everStored)
      && (forall key :: key in cache ==> cache[key] in everStored)
    }

    function Db(): LocationDb
      reads this
    {
      LocationDb(cache, store)
    }

    /** The service attached to what Redis and the table already hold. */
    constructor (initialCache: map<string, PincodeLocation>, initialStore: seq<PincodeLocation>)
      ensures Valid()
      ensures cache == initialCache && store == initialStore
      ensures everStored == (set loc | loc in initialStore) + initialCache.Values
      ensures saves == 0 && geocoderCalls == 0
    {
      cache, store := initialCache, initialStore;
      saves, geocoderCalls := 0, 0;
      everStored := (set loc | loc in initialStore) + initialCache.Values;
    }

    method GetPincodeLocationFromDb(pincode: string) returns (r: Option<PincodeLocation>)
      ensures r == LookupByPincode(store, pincode)
    {
      r := LookupByPincode(store, pincode);
    }

    method CreatePincodeLocation(loc: PincodeLocation) returns (saved: PincodeLocation)
      requires Valid()
      modifies this
      ensures Valid()
      ensures saved == loc
      ensures store == old(store) + [loc] && cache == old(cache)
      ensures everStored == old(everStored) + {loc}
      ensures saves == old(saves) + 1 && geocoderCalls == old(geocoderCalls)
    {
      store := store + [loc];
      everStored := everStored + {loc};
      saves := saves + 1;
      saved := loc;
    }

    method JsonToPincodeLocation(g: GeoPayload) returns (saved: PincodeLocation)
      requires Valid()
      modifies this
      ensures Valid()
      ensures saved == FromPayload(g)
      ensures store == old(store) + [saved] && cache == old(cache)
      ensures everStored == old(everStored) + {saved}
      ensures saves == old(saves) + 1 && geocoderCalls == old(geocoderCalls)
    {
      var loc := PincodeLocation(g.zip, None, None, None, None);
      loc := loc.(name := Some(g.name));
      loc := loc.(latitude := Some(g.lat));
      loc := loc.(longitude := Some(g.lon));
      loc := loc.(country := Some(g.country));
      saved := CreatePincodeLocation(loc);
    }

    method GetPincodeLocationUsingApi(pincode: string, reply: GeoReply) returns (r: Result<PincodeLocation, Failure>)
      requires Valid()
      modifies this
      ensures Valid()
      ensures r == Geocode(pincode, reply)
      ensures cache == old(cache)
      ensures r.Ok? ==> store == old(store) + [r.value] && saves == old(saves) + 1
      ensures r.Ok? ==> everStored == old(everStored) + {r.value}
      ensures r.Err? ==> store == old(store) && saves == old(saves) && everStored == old(everStored)
      ensures geocoderCalls == old(geocoderCalls) + 1
    {
      geocoderCalls := geocoderCalls + 1;
      match reply {
        case GeoClientError(cod, message) =>
          if cod == 404 {
            return Err(IllegalArgument("Pincode: " + pincode + " " + message));
          } else if cod == 401 {
            return Err(IllegalArgument("Invalid API key"));
          } else {
            return Err(IllegalArgument(message));
          }
        case GeoUnreadableClientError =>
          return Err(MalformedErrorBody);
        case GeoServerOrIoFailure =>
          return Err(RemoteFailure);
        case GeoNullBody =>
          return Err(IllegalArgument("No response received for pincode: " + pincode));
        case GeoEmptyBody =>
          return Err(IllegalArgument("No response received for pincode: " + pincode));
        case GeoBody(g) =>
          var saved := JsonToPincodeLocation(g);
          return Ok(saved);
      }
    }

    method GetPincodeLocation(pincode: string, reply: GeoReply) returns (r: Result<PincodeLocation, Failure>)
      requires Valid()
      modifies this
      ensures Valid()
      ensures Resolve(old(Db()), pincode, reply) == Resolution(r, Db())
      ensures geocoderCalls == old(geocoderCalls) + (if ConsultsGeocoder(old(Db()), pincode) then 1 else 0)
      ensures saves == old(saves) + (|store| - |old(store)|)
    {
      var key := KeyPrefix + pincode;
      if key in cache {
        return Ok(cache[key]);
      }
      var fromDb := GetPincodeLocationFromDb(pincode);
      if fromDb.Some? {
        cache := cache[key := fromDb.value];
        return Ok(fromDb.value);
      }
      r := GetPincodeLocationUsingApi(pincode, reply);
      if r.Ok? {
        cache := cache[key := r.value];
      }
    }

    method UpdatePincodeLocation(input: PincodeLocation) returns (saved: PincodeLocation)
      requires Valid()
      modifies this
      ensures Valid()
      ensures Update(old(store), input) == Saved(saved, store)
      ensures cache == old(cache)
      ensures everStored == old(everStored) + {saved}
      ensures saves == old(saves) + 1 && geocoderCalls == old(geocoderCalls)
    {
      var found := FindByPincode(store, input.pincode);
      if found.None? {
        saved := CreatePincodeLocation(input);
        return;
      }
      var i := found.value;
      var existing := store[i];
      if input.latitude.Some? { existing := existing.(latitude := input.latitude); }
      if input.longitude.Some? { existing := existing.(latitude := input.longitude); }
      if input.name.Some? { existing := existing.(name := input.name); }
      if input.country.Some? { existing := existing.(country := input.country); }
      store := store[i := existing];
      everStored := everStored + {existing};
      saves := saves + 1;
      saved := existing;
    }
  }
}
