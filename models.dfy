/**
  The two persisted entities (PincodeLocation, WeatherData) and the
  exceptions the services and the controller throw. The JPA id, status and
  audit timestamps of BaseModel carry no behaviour here and are omitted.
*/
module Models {
  import opened Wrappers
  import opened LocalDates

  /**
    A java.lang.Double. No code computes with these values: they are copied
    between records and compared for equality only.
  */
  type Double = real

  /**
    A row of pincode_locations. The pincode is the lookup key; the other
    fields are nullable, which is what updatePincodeLocation's merge tests.
  */
  datatype PincodeLocation = PincodeLocation(
    pincode: string,
    name: Option<string>,
    latitude: Option<Double>,
    longitude: Option<Double>,
    country: Option<string>)

  /** A weather observation row; every field is a nullable boxed value in the source. */
  datatype WeatherData = WeatherData(
    latitude: Option<Double>,
    longitude: Option<Double>,
    date: Option<Date>,
    temperature: Option<Double>,
    humidity: Option<int>,
    windSpeed: Option<Double>)

  /** A WeatherData with every field null, as `new WeatherData()` makes it. */
  const EmptyWeatherData := WeatherData(None, None, None, None, None, None)

  /**
    The exceptions that leave the core. Two messages of the source embed
    Double values rendered by Double.toString; those carry the values
    themselves instead of the rendered text.
  */
  datatype Failure =
    /** IllegalArgumentException with this message. */
    | IllegalArgument(message: string)
    /** IllegalArgumentException "No response received for lat: <lat> lon: <lon> date: <date>". */
    | NoOldWeatherResponse(latitude: Option<Double>, longitude: Option<Double>, date: Date)
    /** IllegalArgumentException "No response received for \"lat:<lat>, lon:<lon>, date:<today>\"". */
    | NoCurrentWeatherResponse(latitude: Option<Double>, longitude: Option<Double>, today: Date)
    /** DateTimeParseException with this message. */
    | DateTimeParse(message: string)
    /** NullPointerException from reading an absent field or array slot of a weather payload. */
    | MissingPayloadField
    /**
      HttpServerErrorException (a 5xx reply) or ResourceAccessException (an
      I/O failure) from a remote call: no handler catches it, so it leaves
      the service unmapped.
    */
    | RemoteFailure
    /** JsonProcessingException from reading a 4xx error body that is not JSON. */
    | MalformedErrorBody
}
