/** The settings of `config.py` that the fetchers read. Environment
    variables come in as an `Environment` value. */
module Config {
  import opened Wrappers
  import opened Effects

  /** What the process environment supplies: the project root and the two
      keys read by the fetchers (`os.getenv`, so possibly absent). */
  datatype Environment = Environment(
    baseDir: string,
    openWeatherApiKey: Option<string>,
    nycAppToken: Option<string>)

  const WeatherApiBase := "https://api.openweathermap.org/data/2.5"
  const NycLat: real := 40.7580
  const NycLon: real := -73.9855

  function DataDir(env: Environment): string {
    Join(env.baseDir, "data")
  }

  function RawDataDir(env: Environment): string {
    Join(DataDir(env), "raw")
  }

  function ProcessedDataDir(env: Environment): string {
    Join(DataDir(env), "processed")
  }
}
