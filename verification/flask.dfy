/**
 * The parts of a Flask application the live suite consults: its configuration
 * mapping, read with `dict.get`, and the text an f-string makes of a value.
 */
module Flask {
  import Decimal

  /** A configuration value: the suite reads `HOST` as a string and `PORT` as an int. */
  datatype ConfigValue = Str(s: string) | Int(i: int)

  /** `str(v)`, as used inside an f-string. */
  function Format(v: ConfigValue): (t: string)
    ensures v.Int? ==> |t| > 0
  {
    match v
    case Str(s) => s
    case Int(i) => Decimal.FromInt(i)
  }

  /** `config.get(key, default)`: the stored value when the key is present, the default otherwise. */
  function ConfigGet(config: map<string, ConfigValue>, key: string, default: ConfigValue): (v: ConfigValue)
    ensures key in config ==> v == config[key]
    ensures key !in config ==> v == default
  {
    if key in config then config[key] else default
  }

  /** A Flask application object; only its identity and configuration matter here. */
  class App {
    const config: map<string, ConfigValue>

    constructor (config: map<string, ConfigValue>)
      ensures this.config == config
    {
      this.config := config;
    }
  }
}
