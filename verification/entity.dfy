/** The record the service returns for one lookup (internal/entity). */
module Entity {
  import opened GoLib

  datatype CurrentWeather = CurrentWeather(
    location: string,
    temperature: Float64,
    humidity: Int,
    condition: string)
}
