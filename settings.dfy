/** Process configuration and the tools bundle handed to every route action. */
module Settings {
  import opened Js

  /** The configured logger (`config.logger`); its calls are not modelled. */
  datatype Logger = Logger(id: nat)

  /** The formatting helpers built from the configuration by the utils
      helper, which is not part of this model. */
  datatype Utils = Utils(id: nat)

  /** The resolved store settings; the insert action reads only `baseUri`.
      How they are resolved from the configuration is not part of this model. */
  datatype DbConfig = DbConfig(baseUri: string)

  /** The configuration entries the route setup reads itself: `urlPrefix`
      (`None` when unset), `auth` (any value; only its truthiness matters
      here) and `logger`. Every other entry is read only by helpers that are
      not part of this model and is kept in `other`. */
  datatype Config = Config(
    urlPrefix: Option<string>,
    auth: Json,
    logger: Logger,
    other: map<string, Json>)

  /** The bundle `{config, dbConfig, utils, logger}` given to an action. */
  datatype Tools = Tools(config: Config, dbConfig: DbConfig, utils: Utils, logger: Logger)
}
