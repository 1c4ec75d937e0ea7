/** Values shared by every part of the model: Go's `error`, optional and
    fallible results, and the decoded JSON configuration map. */
module Core {

  datatype Option<+T> = None | Some(value: T)

  datatype Result<+T> = Ok(value: T) | Err(error: Error)

  /** The failures fixed in advance: the call at position `k` fails with
      `faults[k]` when `k` is scheduled, and succeeds otherwise. */
  type Faults = map<nat, Error>

  function At(faults: Faults, k: nat): Option<Error>
  {
    if k in faults then Some(faults[k]) else None
  }

  /** A Go `error`, identified by its message. */
  datatype Error = Error(msg: string)

  /** One value of the decoded JSON configuration: a JSON string, or any other
      JSON value together with what fmt's `%s` verb prints for it
      (for a number, `%!s(float64=3306)`). */
  datatype Value = Str(s: string) | NonString(rendered: string)

  /** The configuration as decoded from JSON into `map[string]interface{}`. */
  type Config = map<string, Value>

  /** What `fmt.Sprintf("%s", config_map[key])` prints: the string itself, the
      verb's complaint for a value of another type, and `%!s(<nil>)` for a
      missing key. */
  function Field(config: Config, key: string): string
  {
    if key !in config then "%!s(<nil>)"
    else match config[key]
      case Str(s) => s
      case NonString(r) => r
  }

  /** The type assertion `config["driver"].(string)` succeeds. */
  predicate HasDriver(config: Config)
  {
    "driver" in config && config["driver"].Str?
  }

  function DriverOf(config: Config): string
    requires HasDriver(config)
  {
    config["driver"].s
  }
}
