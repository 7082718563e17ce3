/**
  WeatherDataDto: the response body of the weather endpoint, a copy of a
  WeatherData record plus the request's pincode and three fixed unit
  labels, and the two copying conversions between it and WeatherData.
*/
module WeatherDataDtos {
  import opened Wrappers
  import opened LocalDates
  import opened Models

  /**
    The temperature label exactly as the source literal holds it: the two
    characters U+00C2 U+00B0 (a UTF-8 "°" read as Latin-1) followed by 'C'.
  */
  const TemperatureUnit: string := "\U{00C2}\U{00B0}C"
  const HumidityUnit: string := "%"
  const WindSpeedUnit: string := "km/h"

  /** The message both conversions throw for a null argument. */
  const NullWeatherData: string := "Weather data cannot be null"

  /** Every property of the bean is nullable and has a setter, the unit labels included. */
  datatype WeatherDataDto = WeatherDataDto(
    pincode: Option<string>,
    latitude: Option<Double>,
    longitude: Option<Double>,
    date: Option<Date>,
    temperature: Option<Double>,
    humidity: Option<int>,
    windSpeed: Option<Double>,
    temperatureUnit: Option<string>,
    humidityUnit: Option<string>,
    windSpeedUnit: Option<string>)

  predicate HasDefaultUnits(d: WeatherDataDto) {
    d.temperatureUnit == Some(TemperatureUnit)
    && d.humidityUnit == Some(HumidityUnit)
    && d.windSpeedUnit == Some(WindSpeedUnit)
  }

  /** Whether a DTO and a record agree on the six observation fields. */
  predicate SameObservation(d: WeatherDataDto, w: WeatherData) {
    && d.latitude == w.latitude && d.longitude == w.longitude && d.date == w.date
    && d.temperature == w.temperature && d.humidity == w.humidity && d.windSpeed == w.windSpeed
  }

  /** The no-argument constructor: no data, and the three unit labels set. */
  function NewDto(): (d: WeatherDataDto)
    ensures HasDefaultUnits(d)
    ensures d.pincode.None? && SameObservation(d, EmptyWeatherData)
  {
    WeatherDataDto(None, None, None, None, None, None, None, Some(TemperatureUnit), Some(HumidityUnit), Some(WindSpeedUnit))
  }

  /** WeatherDataDto.get: a fresh DTO filled from the record and the pincode; a null record is rejected. */
  function Get(w: Option<WeatherData>, pincode: Option<string>): (r: Result<WeatherDataDto, Failure>)
    ensures r.Err? <==> w.None?
    ensures r.Err? ==> r.error == IllegalArgument(NullWeatherData)
    ensures r.Ok? ==> r.value.pincode == pincode && SameObservation(r.value, w.value) && HasDefaultUnits(r.value)
  {
    match w
    case None => Err(IllegalArgument(NullWeatherData))
    case Some(data) =>
      Ok(NewDto().(pincode := pincode, latitude := data.latitude, longitude := data.longitude, date := data.date,
                   temperature := data.temperature, humidity := data.humidity, windSpeed := data.windSpeed))
  }

  /** WeatherDataDto.getWeatherData: a fresh record with the DTO's six observation fields; a null DTO is rejected. */
  function GetWeatherData(d: Option<WeatherDataDto>): (r: Result<WeatherData, Failure>)
    ensures r.Err? <==> d.None?
    ensures r.Err? ==> r.error == IllegalArgument(NullWeatherData)
    ensures r.Ok? ==> SameObservation(d.value, r.value)
  {
    match d
    case None => Err(IllegalArgument(NullWeatherData))
    case Some(dto) =>
      Ok(EmptyWeatherData.(latitude := dto.latitude, longitude := dto.longitude, date := dto.date,
                           temperature := dto.temperature, humidity := dto.humidity, windSpeed := dto.windSpeed))
  }

  /** Converting a record to a DTO and back gives the record again, whatever pincode was attached. */
  lemma RecordRoundTrip(w: WeatherData, pincode: Option<string>)
    ensures Get(Some(w), pincode).Ok?
    ensures GetWeatherData(Some(Get(Some(w), pincode).value)) == Ok(w)
  {
  }

  /**
    Converting a DTO to a record and back, with the DTO's own pincode,
    keeps the pincode and the observation and resets the units to the
    defaults; a DTO that carries the default units comes back unchanged.
  */
  lemma DtoRoundTrip(d: WeatherDataDto)
    ensures GetWeatherData(Some(d)).Ok?
    ensures var back := Get(Some(GetWeatherData(Some(d)).value), d.pincode);
      back.Ok? && back.value.pincode == d.pincode && SameObservation(back.value, GetWeatherData(Some(d)).value)
      && HasDefaultUnits(back.value)
    ensures HasDefaultUnits(d) ==> Get(Some(GetWeatherData(Some(d)).value), d.pincode) == Ok(d)
  {
  }

  /** Both conversions reject null with the same message. */
  lemma NullRejected(pincode: Option<string>)
    ensures Get(None, pincode) == Err(IllegalArgument(NullWeatherData))
    ensures GetWeatherData(None) == Err(IllegalArgument(NullWeatherData))
  {
  }
}
