# weather-info-pincode, modelled in Dafny

A Spring Boot service answers `GET /weather?pincode=..&for_date=..` with the
weather at an Indian pincode on a given day. The model covers four parts of it:

- **Date routing** (`WeatherController.getWeather`). The date must be a strict
  ISO-8601 calendar date `YYYY-MM-DD`. A date before today is served by the
  historical weather service. Today's date is served by the live weather
  service. A later date is rejected.
- **Location resolution** (`PincodeLocationService`). A pincode is looked up
  in the Redis cache (key `pincode:<pincode>`), then in the
  `pincode_locations` table, then through the geocoding API. A table hit is
  cached. A geocoder answer is saved to the table and cached.
  `updatePincodeLocation` creates a row or merges the input into the
  existing row.
- **Weather retrieval** (`WeatherDataService`). Live weather always comes
  from the API. Historical weather comes from the `weather_data` table, keyed
  by latitude, longitude and date; on a miss it comes from the historical
  API and is saved. `jsonToWeatherData` turns a provider body into a record.
- **Response mapping** (`WeatherDataDto`). A record and the request pincode
  are copied into a DTO that carries three fixed unit labels, and back.

Layout, one module per file:

| file | module | contents |
|---|---|---|
| `wrappers.dfy` | `Wrappers` | `Option` (Java null) and `Result` (a thrown exception) |
| `local_dates.dfy` | `LocalDates` | `Date`, the strict ISO parser, its inverse printer, calendar order |
| `models.dfy` | `Models` | the `PincodeLocation` and `WeatherData` records, the exceptions (`Failure`) |
| `pincode_location_service.dfy` | `PincodeLocations` | specification functions `Resolve` and `Update`, their lemmas, class `PincodeLocationService` |
| `weather_data_service.dfy` | `WeatherDataServices` | `JsonToWeatherData`, specification functions `OldWeather` and `CurrentWeather`, their lemmas, class `WeatherDataService` |
| `weather_data_dto.dfy` | `WeatherDataDtos` | the DTO and its two conversions |
| `weather_controller.dfy` | `WeatherControllers` | `Route`, `Respond`, class `WeatherController` |

The two services keep their state in class fields:

- the cache is a `map`;
- each table is a `seq` of rows in insertion order;
- ghost counters record saves and remote calls.

Each method is proved equal to a pure specification function applied to
the old state. The properties are proved as lemmas about those functions.
Remote replies (geocoder, weather APIs) and the current date are parameters.
A reply is one of:

- an already-typed body;
- a null or empty body;
- an HTTP 4xx error whose JSON body is given by its fields;
- a 4xx error whose body is not JSON, which makes reading it throw;
- a 5xx reply or an I/O failure, which no handler catches.

The last two propagate as they are. On the weather paths they do so after
the location has already been cached, and possibly saved.

Two behaviours of the code deserve a note:

- **The hour slot.** `jsonToWeatherData` reads hourly slot
  `Calendar.HOUR_OF_DAY - 1`. `Calendar.HOUR_OF_DAY` is the field number 11,
  not the clock hour, so the slot is always 10 (`HourIndex`).
- **The merge.** `updatePincodeLocation` passes the input's longitude to
  `setLatitude` (PincodeLocationService.java line 100). A non-null input
  longitude therefore overwrites the stored latitude, and the stored
  longitude is never updated. `MergeAsWritten` models this;
  `MergeAgreesIff` says exactly when it agrees with a field-by-field merge.

## Model

| member | source | states |
|---|---|---|
| LocalDates.DaysInMonth | src/main/java/com/arun/app/controllers/WeatherController.java:41 | The strict ISO resolver's month lengths lie between 28 and 31. A month has 29 days exactly for February in a leap year. |
| LocalDates.BeforeTrichotomy | src/main/java/com/arun/app/controllers/WeatherController.java:46-52 | The day comparison against today is a strict total order. Two dates are equal or exactly one precedes the other. |
| LocalDates.ParseIsoDate | src/main/java/com/arun/app/controllers/WeatherController.java:41 | LocalDate.parse accepts only valid calendar dates, with a year from 0 to 9999. |
| LocalDates.FormatIsoDate | src/main/java/com/arun/app/controllers/WeatherController.java:41 | Printing a date gives text of the exact `YYYY-MM-DD` shape the parser requires. |
| LocalDates.ParseFormat | src/main/java/com/arun/app/controllers/WeatherController.java:41 | Every valid date with a four-digit year parses back from its printed form. |
| LocalDates.FormatParse | src/main/java/com/arun/app/controllers/WeatherController.java:41 | The parser accepts only the canonical text of the date it returns, so it is injective. |
| LocalDates.ParseExamplePast | src/test/java/com/arun/app/controllers/WeatherControllerTests.java:111 | "2020-10-10" parses to 10 October 2020. |
| LocalDates.ParseExampleShortYear | src/test/java/com/arun/app/controllers/WeatherControllerTests.java:97 | "202-03-30" (three-digit year) is rejected. |
| LocalDates.ParseExampleLeapDay | src/main/java/com/arun/app/controllers/WeatherController.java:41 | 29 February is accepted in the leap year 2024. |
| LocalDates.ParseExampleNoLeapDay | src/main/java/com/arun/app/controllers/WeatherController.java:41 | 29 February 2023 is rejected, not rolled over to 1 March. |
| LocalDates.Number | src/main/java/com/arun/app/controllers/WeatherController.java:41 | The value of a run of w decimal digits is below 10^w. |
| LocalDates.NumberOfPadded | src/main/java/com/arun/app/controllers/WeatherController.java:41 | Reading back the zero-padded digits of n gives n, for any n that fits the width. |
| LocalDates.PaddedOfNumber | src/main/java/com/arun/app/controllers/WeatherController.java:41 | Re-padding the value of a digit run gives that run back. |
| PincodeLocations.CacheKey | src/main/java/com/arun/app/services/PincodeLocationService.java:38 | The Redis key is "pincode:" followed by the pincode itself. |
| PincodeLocations.CacheKeyInjective | src/main/java/com/arun/app/services/PincodeLocationService.java:38 | Two pincodes with the same cache key are the same pincode. |
| PincodeLocations.FindByPincode | src/main/java/com/arun/app/repositories/PincodeLocationRepo.java:10 | findByPincode finds no row exactly when no row has the pincode. Otherwise it finds the first row with the pincode. |
| PincodeLocations.LookupByPincode | src/main/java/com/arun/app/services/PincodeLocationService.java:55-57 | getPincodeLocationFromDb returns a stored row with the requested pincode. It returns null exactly when no such row exists. |
| PincodeLocations.FromPayload | src/main/java/com/arun/app/services/PincodeLocationService.java:116-121 | The built location carries the body's zip, name, lat, lon and country, each in its own field. |
| PincodeLocations.GeocodeErrors | src/main/java/com/arun/app/services/PincodeLocationService.java:63-87 | A 404 becomes "Pincode: <p> <message>". A 401 becomes "Invalid API key". Any other code becomes the body's message. A null or empty body becomes "No response received for pincode: <p>". An error body that is not JSON, a 5xx reply and an I/O failure propagate unmapped. |
| PincodeLocations.ResolveCacheHit | src/main/java/com/arun/app/services/PincodeLocationService.java:38-41 | A cached location is returned and nothing changes. The geocoder is not consulted and its reply is irrelevant. |
| PincodeLocations.ResolveTableHit | src/main/java/com/arun/app/services/PincodeLocationService.java:43-47 | On a cache miss, a table row is returned and cached under the key. The table is unchanged and the geocoder is not consulted. |
| PincodeLocations.ResolveFromGeocoder | src/main/java/com/arun/app/services/PincodeLocationService.java:49-51 | A miss in both tiers saves exactly one row, copied from the geocoder body. That row is also cached and returned. |
| PincodeLocations.ResolveGeocoderFailure | src/main/java/com/arun/app/services/PincodeLocationService.java:49-50 | A geocoder failure raises the mapped exception and leaves the cache and the table unchanged. |
| PincodeLocations.ResolveCachesResult | src/main/java/com/arun/app/services/PincodeLocationService.java:37-53 | A successful resolution caches its result under the requested key. The table grows by at most that row, and only on the geocoder path. A failed resolution changes nothing. |
| PincodeLocations.ResolveIdempotent | src/main/java/com/arun/app/services/PincodeLocationService.java:37-53 | Resolving a pincode again after a success returns the same location and changes nothing, whatever the geocoder would answer. |
| PincodeLocations.ResolveExample | src/test/java/com/arun/app/services/PincodeLocationServiceTests.java:63-94 | With empty stores, the 110001 geocoder body yields the expected location. That location is saved once and cached under "pincode:110001". |
| PincodeLocations.MergeAsWrittenFields | src/main/java/com/arun/app/services/PincodeLocationService.java:99-102 | After the merge as written, name and country take the input's non-null values. Latitude takes the input's longitude if non-null, else its latitude if non-null, else stays. Longitude and pincode are kept. |
| PincodeLocations.MergeAgreesIff | src/main/java/com/arun/app/services/PincodeLocationService.java:99-102 | The merge as written equals a field-by-field merge if and only if the input has no longitude, or its longitude equals both the stored longitude and the latitude a field-by-field merge keeps. |
| PincodeLocations.UpdateWithoutRowCreates | src/main/java/com/arun/app/services/PincodeLocationService.java:96-97 | With no row for the pincode, an update appends the input and returns it. |
| PincodeLocations.UpdateMergesRow | src/main/java/com/arun/app/services/PincodeLocationService.java:96-104 | With a row for the pincode, only that row changes: it becomes the merge of the row and the input, and the merge is returned. The table keeps its size and the stored longitude is kept. |
| PincodeLocations.UpdateExampleOverwritesLatitude | src/test/java/com/arun/app/services/PincodeLocationServiceTests.java:149-171 | In the update test the name is replaced, and the stored latitude becomes the input's longitude 77.2176. The result differs from a field-by-field merge. |
| PincodeLocations.PincodeLocationService.constructor | src/main/java/com/arun/app/services/PincodeLocationService.java:27-34 | The service attaches to the given cache and table contents; every row and cached value counts as stored. |
| PincodeLocations.PincodeLocationService.GetPincodeLocationFromDb | src/main/java/com/arun/app/services/PincodeLocationService.java:55-57 | Returns the table lookup for the pincode. |
| PincodeLocations.PincodeLocationService.CreatePincodeLocation | src/main/java/com/arun/app/services/PincodeLocationService.java:90-92 | Appends exactly the given row to the table and returns it. The cache is untouched. |
| PincodeLocations.PincodeLocationService.JsonToPincodeLocation | src/main/java/com/arun/app/services/PincodeLocationService.java:109-124 | Saves and returns the location copied from the body. |
| PincodeLocations.PincodeLocationService.GetPincodeLocationUsingApi | src/main/java/com/arun/app/services/PincodeLocationService.java:63-87 | Makes one geocoder call. Its result is the mapped location or exception. On success exactly that row is saved; on failure nothing changes. The cache is untouched. |
| PincodeLocations.PincodeLocationService.GetPincodeLocation | src/main/java/com/arun/app/services/PincodeLocationService.java:37-53 | The result and the new cache and table are those of `Resolve` on the old ones. The geocoder is called exactly when the pincode is in neither store. |
| PincodeLocations.PincodeLocationService.UpdatePincodeLocation | src/main/java/com/arun/app/services/PincodeLocationService.java:95-106 | The saved record and the new table are those of `Update` on the old table. Exactly one save happens and the cache is untouched. |
| WeatherDataServices.JsonToWeatherData | src/main/java/com/arun/app/services/WeatherDataService.java:116-142 | Translation succeeds exactly when every slot it reads is present; otherwise it raises a null-pointer failure. Humidity is hourly slot 10. The coordinates are left null. |
| WeatherDataServices.TranslateWithCurrent | src/main/java/com/arun/app/services/WeatherDataService.java:122-129 | With a "current" object, date, temperature and wind speed come from it, and humidity from hourly slot 10. |
| WeatherDataServices.TranslateHourlyOnly | src/main/java/com/arun/app/services/WeatherDataService.java:130-139 | Without a "current" object, all four values come from hourly slot 10. |
| WeatherDataServices.TranslateSamplesOneHour | src/main/java/com/arun/app/services/WeatherDataService.java:127-137 | Bodies that agree at hourly slot 10 translate alike, whatever the other hours hold. |
| WeatherDataServices.TranslateExample | src/test/java/com/arun/app/services/WeatherDataServiceTests.java:56-88 | The live body of the tests gives date 2025-03-25, temperature 25.5, wind 5.0 and humidity 70, the eleventh hourly value. |
| WeatherDataServices.WithCoordinates | src/main/java/com/arun/app/services/WeatherDataService.java:68-69 | The record gets the location's latitude and longitude. Its other four fields are kept. |
| WeatherDataServices.FindWeather | src/main/java/com/arun/app/repositories/WeatherDataRepo.java:13 | findByLatitudeAndLongitudeAndDate finds no row exactly when no row matches latitude, longitude and date. Otherwise it finds the first matching row. |
| WeatherDataServices.LookupWeather | src/main/java/com/arun/app/repositories/WeatherDataRepo.java:13 | Returns a stored row matching latitude, longitude and date. It returns null exactly when no row matches. |
| WeatherDataServices.OldWeatherTableHit | src/main/java/com/arun/app/services/WeatherDataService.java:78-83 | A table hit is returned as stored. Nothing is saved, and the weather reply is irrelevant. |
| WeatherDataServices.OldWeatherFromApi | src/main/java/com/arun/app/services/WeatherDataService.java:84-107 | On a table miss with a translatable body, exactly one row is saved and returned. That row is the translated record with the location's coordinates. |
| WeatherDataServices.OldWeatherApiError | src/main/java/com/arun/app/services/WeatherDataService.java:85-98 | A 4xx error from the historical API becomes an exception with the body's "reason". A non-JSON error body, a 5xx reply and an I/O failure propagate unmapped. No weather row is saved in any of these cases. |
| WeatherDataServices.OldWeatherNullBody | src/main/java/com/arun/app/services/WeatherDataService.java:100-103 | A null historical body raises the no-response exception with the requested coordinates and date, and nothing is saved. |
| WeatherDataServices.OldWeatherSavesAtMostOnce | src/main/java/com/arun/app/services/WeatherDataService.java:76-108 | A historical request leaves the weather table unchanged, or appends the one record it returns and only on the API path. Its effect on the location stores is that of `Resolve`. |
| WeatherDataServices.OldWeatherCarriesLocation | src/main/java/com/arun/app/services/WeatherDataService.java:78-107 | Every historical record returned carries the coordinates of the location the pincode resolved to. |
| WeatherDataServices.CurrentWeatherCarriesLocation | src/main/java/com/arun/app/services/WeatherDataService.java:47-70 | Every live record returned carries the coordinates of the location the pincode resolved to. |
| WeatherDataServices.CurrentWeatherErrors | src/main/java/com/arun/app/services/WeatherDataService.java:49-65 | A 4xx error from the live API becomes an exception with the raw error body. A null body raises the no-response exception with the coordinates and today's date. A non-JSON error body, a 5xx reply and an I/O failure propagate unmapped. |
| WeatherDataServices.WeatherFailureKeepsLocation | src/main/java/com/arun/app/services/WeatherDataService.java:47-103 | A weather call that fails after the location resolved leaves the location step's effects in place. The location stays cached, and a row saved from the geocoder stays in the table. |
| WeatherDataServices.OldWeatherIdempotent | src/main/java/com/arun/app/services/WeatherDataService.java:76-108 | Once a record dated on the requested day is returned, asking again returns it from the stores. Nothing changes, whatever either API would answer. |
| WeatherDataServices.OldWeatherRefetchesOtherDay | src/main/java/com/arun/app/services/WeatherDataService.java:80-107 | If the historical body is dated on another day than requested, the saved row never matches the request. Asking again goes to the API again and saves a second copy. |
| WeatherDataServices.WeatherDataService.constructor | src/main/java/com/arun/app/services/WeatherDataService.java:35-40 | The service wraps the given location service and attaches to the given weather table contents. |
| WeatherDataServices.WeatherDataService.CreateOldWeather | src/main/java/com/arun/app/services/WeatherDataService.java:111-113 | Appends exactly the given record to the weather table and returns it. |
| WeatherDataServices.WeatherDataService.GetCurrentWeather | src/main/java/com/arun/app/services/WeatherDataService.java:45-71 | The result and the new location stores are those of `CurrentWeather`. The weather table is untouched. Exactly one location lookup happens, and one weather call when the location resolved. |
| WeatherDataServices.WeatherDataService.GetOldWeather | src/main/java/com/arun/app/services/WeatherDataService.java:76-108 | The result, the new location stores and the new weather table are those of `OldWeather`. The table is read only when the location resolved; the API is called and a row saved only on a table miss. |
| WeatherDataDtos.NewDto | src/main/java/com/arun/app/dtos/WeatherDataDto.java:29-33 | A new DTO has no data and carries the three unit labels "Â°C", "%" and "km/h". |
| WeatherDataDtos.Get | src/main/java/com/arun/app/dtos/WeatherDataDto.java:36-49 | A null record is rejected with "Weather data cannot be null". Otherwise the DTO carries the given pincode, the record's six observation fields and the default units. |
| WeatherDataDtos.GetWeatherData | src/main/java/com/arun/app/dtos/WeatherDataDto.java:50-62 | A null DTO is rejected with "Weather data cannot be null". Otherwise the record carries the DTO's six observation fields. |
| WeatherDataDtos.RecordRoundTrip | src/main/java/com/arun/app/dtos/WeatherDataDto.java:36-62 | Converting a record to a DTO and back gives the same record. |
| WeatherDataDtos.DtoRoundTrip | src/main/java/com/arun/app/dtos/WeatherDataDto.java:36-62 | Converting a DTO to a record and back keeps pincode and observation and resets the units. A DTO with the default units comes back unchanged. |
| WeatherDataDtos.NullRejected | src/main/java/com/arun/app/dtos/WeatherDataDto.java:37-39 | Both conversions reject null with the same message. |
| WeatherControllers.Route | src/main/java/com/arun/app/controllers/WeatherController.java:41-59 | An unparsable date fails with "Invalid Date: <for_date>", before any call. The historical call, for the request's pincode, is made only for the parsed date when it is before today. The live call is made only when the date is today. "Enter current date or previous date" is raised exactly for a later date. |
| WeatherControllers.RouteTrichotomy | src/main/java/com/arun/app/controllers/WeatherController.java:46-59 | For a valid date exactly one outcome holds, in both directions. Before today gives the historical call, after today gives the error, and today gives the live call. |
| WeatherControllers.RouteExampleMalformed | src/test/java/com/arun/app/controllers/WeatherControllerTests.java:94-106 | "202-03-30" fails with "Invalid Date: 202-03-30". |
| WeatherControllers.RouteExamplePast | src/test/java/com/arun/app/controllers/WeatherControllerTests.java:109-130 | "2020-10-10" goes to the historical service with that date. |
| WeatherControllers.Respond | src/main/java/com/arun/app/controllers/WeatherController.java:49-63 | A service exception passes through, and a null record fails with "Weather data cannot be null". Otherwise the response carries the request pincode, the record's observation fields and the default units. |
| WeatherControllers.NonNull | src/main/java/com/arun/app/services/WeatherDataService.java:67-107 | The service's answer, seen as a possibly-null result that is never null. Both return points of getOldWeather (lines 83, 107) and that of getCurrentWeather (line 70) return a record. |
| WeatherControllers.RespondToService | src/main/java/com/arun/app/controllers/WeatherController.java:60-63 | On a real service answer the controller's null check never fires. The response is the service's exception, or the DTO of its record, which always succeeds. |
| WeatherControllers.WeatherController.constructor | src/main/java/com/arun/app/controllers/WeatherController.java:29-31 | The controller wraps the given service. |
| WeatherControllers.WeatherController.GetWeather | src/main/java/com/arun/app/controllers/WeatherController.java:33-64 | A rejected date touches no state and calls no service. A past date calls getOldWeather exactly once and getCurrentWeather never, and the state is that of `OldWeather`. Today calls getCurrentWeather exactly once and getOldWeather never, and the state is that of `CurrentWeather`. |

## Left out

- HTTP: URL building, RestTemplate and the provider's JSON text. Each remote answer is a parameter, already parsed into typed fields; Jackson parsing and `Double.valueOf` are not modelled.
- Java `Double` values: they are only copied and compared, so they are modelled as exact reals.
- The Redis serializers and configuration, the JPA ids, status and audit timestamps of BaseModel, and logging and `System.out` output.
- PincodeLocations.FindByPincode: when several rows match, the first is returned; the repository's non-unique-result exception is not modelled. The case is reachable: a geocoder body whose zip differs from the requested pincode appends a row for a pincode that may already have one.
- WeatherDataServices.FindWeather: the same holds for several rows matching latitude, longitude and date. This case is reachable too: `OldWeatherRefetchesOtherDay` shows a second copy being saved, and a later lookup of that key would throw in the source.
- Exception messages that embed doubles (the two "No response received for lat..." messages) are structured values; `Double.toString` rendering is not modelled.
- LocalDates.ParseIsoDate: only four-digit, unsigned years are modelled. A signed year or one with five or more digits is rejected by the model, but `LocalDate.parse` accepts some of them.
- SimpleDateFormat's second parse of the request date, and the conversion of `current.time` and `hourly.time` to local dates, are taken to give the same calendar date. The Julian calendar before 1582, time zones and daylight saving are not modelled.
- The current date and the clock are parameters (`today`).
- A null pincode request parameter.
- ControllerAdvisor's mapping of exceptions to HTTP 400 responses, and application bootstrap.
- The code has no weather cache and no time-to-live for cached entries, so neither is modelled.
