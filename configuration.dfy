/**
  The client's configuration (`Zibal.Config`, `Zibal.LogLevel`) and the
  verbosity test that decides whether a log line is written.
 */
module Configuration {
  import Wrappers
  import Errors

  /** `LogLevel`, whose raw values order the verbosity. */
  datatype LogLevel = None | Error | Verbose

  function RawValue(l: LogLevel): (v: nat)
    ensures v <= 2
    ensures l == None <==> v == 0
  {
    match l
    case None => 0
    case Error => 1
    case Verbose => 2
  }

  /** `LogLevel.level`: the tag printed in a log line. */
  function LevelName(l: LogLevel): (name: string)
    ensures name == [] <==> l == None
  {
    match l
    case Error => "error"
    case Verbose => "info"
    case None => ""
  }

  datatype Config = Config(merchant: string, callbackUrl: string, logLevel: LogLevel)

  /**
    `Config.isValid`: re-derived from the fields on every call. `parsesUrl`
    stands for Foundation's `URL(string:)` succeeding.
   */
  predicate IsValid(c: Config, parsesUrl: string -> bool) {
    c.merchant != [] && c.callbackUrl != [] && parsesUrl(c.callbackUrl)
  }

  /** `Config.init`: builds the configuration, or throws `invalidConfig` when it is not valid. */
  function MakeConfig(merchant: string, callbackUrl: string, logLevel: LogLevel,
                      parsesUrl: string -> bool): (r: Wrappers.Result<Config, Errors.Error>)
    ensures r.Failure? <==> (merchant == [] || callbackUrl == [] || !parsesUrl(callbackUrl))
    ensures r.Failure? ==> r.error == Errors.InvalidConfig
    ensures r.Success? ==> r.value == Config(merchant, callbackUrl, logLevel) && IsValid(r.value, parsesUrl)
  {
    var c := Config(merchant, callbackUrl, logLevel);
    if IsValid(c, parsesUrl) then Wrappers.Success(c) else Wrappers.Failure(Errors.InvalidConfig)
  }

  /**
    The gate of `Zibal.log`: nothing is written before a configuration is
    stored; otherwise a line of the given type is written when the stored
    level's raw value exceeds 1, or exceeds 0 and the line is an error.
   */
  predicate ShouldLog(config: Wrappers.Option<Config>, lineType: LogLevel)
    ensures ShouldLog(config, lineType) ==> config.Some? && config.value.logLevel != None
    ensures ShouldLog(config, lineType) && lineType != Error ==> config.value.logLevel == Verbose
  {
    config.Some? &&
    var level := RawValue(config.value.logLevel);
    level > 1 || (level > 0 && lineType == Error)
  }

  /** Verbose writes everything, error writes only errors, none writes nothing. */
  lemma LogGate(config: Wrappers.Option<Config>, lineType: LogLevel)
    ensures ShouldLog(config, lineType) <==>
      config.Some? &&
      (config.value.logLevel == Verbose || (config.value.logLevel == Error && lineType == Error))
    ensures config.Some? && config.value.logLevel == None ==> !ShouldLog(config, lineType)
  {
  }
}
