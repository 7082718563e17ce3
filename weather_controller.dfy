/**
  WeatherController.getWeather (GET /weather?pincode=..&for_date=..):
  validate the date strictly, compare it with today, and route to the
  historical or the live weather service, or reject a future date.

  The routing decision and the response are pure functions of the request,
  today's date and the service's answer; the class composes them with the
  stateful WeatherDataService.
*/
module WeatherControllers {
  import opened Wrappers
  import opened LocalDates
  import opened Models
  import opened PincodeLocations
  import opened WeatherDataServices
  import opened WeatherDataDtos

  const FutureDateMessage: string := "Enter current date or previous date"

  /** The one service call a request leads to. */
  datatype ServiceCall =
    | OldWeatherCall(pincode: string, date: Date)
    | CurrentWeatherCall(pincode: string)

  /**
    Which service call a request makes: none for a malformed or impossible
    date (DateTimeParseException "Invalid Date: <for_date>") or a date after
    today; getOldWeather for a date before today; getCurrentWeather for today.
  */
  function Route(pincode: string, forDate: string, today: Date): (r: Result<ServiceCall, Failure>)
    ensures ParseIsoDate(forDate).None? <==> r == Err(DateTimeParse("Invalid Date: " + forDate))
    ensures r.Ok? ==> r.value.pincode == pincode
    ensures r.Ok? && r.value.OldWeatherCall? ==> ParseIsoDate(forDate) == Some(r.value.date) && Before(r.value.date, today)
    ensures r.Ok? && r.value.CurrentWeatherCall? ==> ParseIsoDate(forDate) == Some(today)
    ensures r == Err(IllegalArgument(FutureDateMessage)) <==> ParseIsoDate(forDate).Some? && Before(today, ParseIsoDate(forDate).value)
  {
    match ParseIsoDate(forDate)
    case None => Err(DateTimeParse("Invalid Date: " + forDate))
    case Some(d) =>
      if Before(d, today) then Ok(OldWeatherCall(pincode, d))
      else if Before(today, d) then Err(IllegalArgument(FutureDateMessage))
      else
        BeforeTrichotomy(d, today);
        Ok(CurrentWeatherCall(pincode))
  }

  /**
    Every valid date leads to exactly one of the three outcomes: the
    historical call for a past date, the future-date error, or the live
    call for today.
  */
  lemma RouteTrichotomy(pincode: string, forDate: string, today: Date)
    requires ParseIsoDate(forDate).Some?
    ensures var d := ParseIsoDate(forDate).value;
      var r := Route(pincode, forDate, today);
      && (Before(d, today) <==> r == Ok(OldWeatherCall(pincode, d)))
      && (Before(today, d) <==> r == Err(IllegalArgument(FutureDateMessage)))
      && (d == today <==> r == Ok(CurrentWeatherCall(pincode)))
  {
  }

  /** The malformed date of the controller tests is rejected before any service call. */
  lemma RouteExampleMalformed(pincode: string, today: Date)
    ensures Route(pincode, "202-03-30", today) == Err(DateTimeParse("Invalid Date: 202-03-30"))
  {
    ParseExampleShortYear();
    assert "Invalid Date: " + "202-03-30" == "Invalid Date: 202-03-30";
  }

  /** The past date of the controller tests goes to the historical service with that date. */
  lemma RouteExamplePast(pincode: string, today: Date)
    requires Before(Date(2020, 10, 10), today)
    ensures Route(pincode, "2020-10-10", today) == Ok(OldWeatherCall(pincode, Date(2020, 10, 10)))
  {
    ParseExamplePast();
  }

  /**
    The response for the service's answer (a record, which the source lets
    be null, or an exception): on the live path a null record is rejected
    by the controller itself, on the historical path by WeatherDataDto.get;
    otherwise the DTO built from the record and the request pincode.
  */
  function Respond(pincode: string, call: ServiceCall, answer: Result<Option<WeatherData>, Failure>): (r: Result<WeatherDataDto, Failure>)
    ensures answer.Err? ==> r == Err(answer.error)
    ensures answer == Ok(None) ==> r == Err(IllegalArgument(NullWeatherData))
    ensures r.Ok? <==> answer.Ok? && answer.value.Some?
    ensures r.Ok? ==> r.value.pincode == Some(pincode) && SameObservation(r.value, answer.value.value) && HasDefaultUnits(r.value)
  {
    match answer
    case Err(e) => Err(e)
    case Ok(w) =>
      if call.CurrentWeatherCall? && w.None? then Err(IllegalArgument(NullWeatherData))
      else Get(w, Some(pincode))
  }

  /** A service result that cannot be null, as the source's services return it. */
  function NonNull(result: Result<WeatherData, Failure>): (r: Result<Option<WeatherData>, Failure>)
    ensures r.Ok? <==> result.Ok?
    ensures r.Ok? ==> r.value == Some(result.value)
    ensures r.Err? ==> r.error == result.error
  {
    match result
    case Ok(w) => Ok(Some(w))
    case Err(e) => Err(e)
  }

  /**
    Neither service returns null (getCurrentWeather returns the record it
    filled, getOldWeather a table row or the saved record), so the
    controller's own null check never fires: the response is the service's
    exception or the DTO of its record.
  */
  lemma RespondToService(pincode: string, call: ServiceCall, result: Result<WeatherData, Failure>)
    ensures Respond(pincode, call, NonNull(result))
         == (if result.Ok? then Get(Some(result.value), Some(pincode)) else Err(result.error))
    ensures result.Ok? ==> Respond(pincode, call, NonNull(result)).Ok?
  {
  }

  /**
    The controller with its injected service. The ghost counters record
    how often each service operation is called, as the controller tests
    verify with their mocks.
  */
  class WeatherController {
    const service: WeatherDataService
    ghost var oldWeatherCalls: nat
    ghost var currentWeatherCalls: nat

    ghost predicate Valid()
      reads this, service, service.locations
    {
      service.Valid()
    }

    constructor (service: WeatherDataService)
      requires service.Valid()
      ensures Valid() && this.service == service
      ensures oldWeatherCalls == 0 && currentWeatherCalls == 0
    {
      this.service := service;
      oldWeatherCalls, currentWeatherCalls := 0, 0;
    }

    /**
      getWeather for a request made on `today`, with `geo` and `weather`
      standing for what the geocoding and weather APIs would answer.
    */
    method GetWeather(pincode: string, forDate: string, today: Date, geo: GeoReply, weather: WeatherReply)
      returns (r: Result<WeatherDataDto, Failure>)
      requires Valid()
      modifies this, service, service.locations
      ensures Valid()
      ensures Route(pincode, forDate, today).Err? ==>
        && r == Err(Route(pincode, forDate, today).error)
        && unchanged(service) && unchanged(service.locations)
        && oldWeatherCalls == old(oldWeatherCalls) && currentWeatherCalls == old(currentWeatherCalls)
      ensures Route(pincode, forDate, today).Ok? && Route(pincode, forDate, today).value.OldWeatherCall? ==>
        var call := Route(pincode, forDate, today).value;
        var o := OldWeather(old(service.locations.Db()), old(service.store), pincode, call.date, geo, weather);
        && r == Respond(pincode, call, NonNull(o.result))
        && service.locations.Db() == o.db && service.store == o.store
        && oldWeatherCalls == old(oldWeatherCalls) + 1 && currentWeatherCalls == old(currentWeatherCalls)
      ensures Route(pincode, forDate, today).Ok? && Route(pincode, forDate, today).value.CurrentWeatherCall? ==>
        var call := Route(pincode, forDate, today).value;
        var c := CurrentWeather(old(service.locations.Db()), pincode, today, geo, weather);
        && r == Respond(pincode, call, NonNull(c.result))
        && service.locations.Db() == c.db && service.store == old(service.store)
        && oldWeatherCalls == old(oldWeatherCalls) && currentWeatherCalls == old(currentWeatherCalls) + 1
    {
      var routed := Route(pincode, forDate, today);
      if routed.Err? {
        return Err(routed.error);
      }
      var call := routed.value;
      var answer;
      if call.OldWeatherCall? {
        answer := service.GetOldWeather(pincode, call.date, geo, weather);
        oldWeatherCalls := oldWeatherCalls + 1;
      } else {
        answer := service.GetCurrentWeather(pincode, today, geo, weather);
        currentWeatherCalls := currentWeatherCalls + 1;
      }
      r := Respond(pincode, call, NonNull(answer));
    }
  }
}
