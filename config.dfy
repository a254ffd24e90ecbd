/** The configuration object the pipeline functions receive: sections of string settings, as a
    ConfigParser (or nested dict) presents them. `config[s][k]` raises KeyError when either is absent. */
module Config {
  import opened Wrappers

  type Config = map<string, map<string, string>>

  /** `config[section][key]`, or None where Python raises KeyError. */
  function Lookup(config: Config, section: string, key: string): Option<string> {
    if section in config && key in config[section] then Some(config[section][key]) else None
  }
}
