/** The weather-forecast database record of Blazr.Demo.Routing.Data and its
    mapping to and from the WeatherForecast transfer object. */
module WeatherData {

  /** System.Guid and System.DateTime: values compared for equality only. */
  type Guid(==)
  type DateTime(==)

  /** A C# `int`. */
  newtype Int32 = x: int | -0x8000_0000 <= x < 0x8000_0000

  /** A C# `string?`: null or a string. */
  datatype NullableString = Null | NonNull(value: string)

  /** The transfer object: the four stored fields of WeatherForecast. */
  datatype WeatherForecast = WeatherForecast(
    id: Guid,
    date: DateTime,
    temperatureC: Int32,
    summary: NullableString)

  /** The database record, a C# record with value equality. */
  datatype DboWeatherForecast = DboWeatherForecast(
    id: Guid,
    date: DateTime,
    temperatureC: Int32,
    summary: NullableString)
  {
    /** Copies the four fields into a new transfer object. */
    function ToDto(): (r: WeatherForecast)
      ensures r.id == id && r.date == date
      ensures r.temperatureC == temperatureC && r.summary == summary
    {
      WeatherForecast(id, date, temperatureC, summary)
    }
  }

  /** Copies the four fields of a transfer object into a new record. */
  function FromDto(record: WeatherForecast): (r: DboWeatherForecast)
    ensures r.id == record.id && r.date == record.date
    ensures r.temperatureC == record.temperatureC && r.summary == record.summary
  {
    DboWeatherForecast(record.id, record.date, record.temperatureC, record.summary)
  }

  /** A transfer object survives the trip through the database record. */
  lemma DtoRoundTrip(record: WeatherForecast)
    ensures FromDto(record).ToDto() == record
  {
  }

  /** A record survives the trip through the transfer object. */
  lemma DboRoundTrip(d: DboWeatherForecast)
    ensures FromDto(d.ToDto()) == d
  {
  }
}
