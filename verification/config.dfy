/** The process settings of `core/config.py`. Loading them from the
    environment or a `.env` file is I/O and is not modelled: a `Settings`
    value is handed to every operation that reads one. */
module Config {

  datatype Settings = Settings(googleApiKey: string)
}
