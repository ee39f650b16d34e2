/** Startup (src/main.rs): where the configuration file is and which configuration a
    command runs with. Parsing the file, checking that it exists and the prompt's answer
    are inputs. */
module Startup {
  import opened Results
  import opened Configuration
  import Confirm

  /** Only `generate-config-file` changes the startup decisions; every other subcommand behaves alike. */
  datatype Subcommand = GenerateConfigFile | OtherSubcommand

  /** A path as its components. */
  type Path = seq<string>

  /** `<config_dir>/qtai/qtai.toml`. */
  function DefaultConfigPath(configDir: Path): Path {
    configDir + ["qtai", "qtai.toml"]
  }

  /** The path as the code computes it: the argument of `unwrap_or` is evaluated first, so a
      missing configuration directory is an error even when `--config` is given. */
  function ConfigPathAsWritten(cliConfig: Option<Path>, configDir: Option<Path>): (r: Result<Path>)
    ensures configDir.None? ==> r == Err("Config directory not found.")
    ensures configDir.Some? ==> r == Ok(cliConfig.GetOr(DefaultConfigPath(configDir.value)))
  {
    match configDir
    case None => Err("Config directory not found.")
    case Some(dir) => Ok(cliConfig.GetOr(DefaultConfigPath(dir)))
  }

  /** The path as intended: `--config` when given, else the default under the configuration directory. */
  function ConfigPath(cliConfig: Option<Path>, configDir: Option<Path>): (r: Result<Path>)
    ensures cliConfig.Some? ==> r == Ok(cliConfig.value)
    ensures cliConfig.None? && configDir.Some? ==> r == Ok(DefaultConfigPath(configDir.value))
    ensures r.Err? <==> cliConfig.None? && configDir.None?
  {
    match cliConfig
    case Some(p) => Ok(p)
    case None =>
      match configDir
      case None => Err("Config directory not found.")
      case Some(dir) => Ok(DefaultConfigPath(dir))
  }

  /** With a configuration directory the two agree; without one, the code fails where `--config`
      should have been used. */
  lemma ConfigPathEagerFallback(p: Path, dir: Path)
    ensures ConfigPathAsWritten(Some(p), Some(dir)) == ConfigPath(Some(p), Some(dir))
    ensures ConfigPathAsWritten(Some(p), None).Err?
    ensures ConfigPath(Some(p), None) == Ok(p)
  {
  }

  /** The outcome of `determine_config`: whether the template file is written, and the
      configuration (or error) the command continues with. */
  datatype Outcome = Outcome(generate: bool, config: Result<Config>)

  const BrokenFile := "Something went wrong from reading config file. Make sure to have default runner and default menu set on the top level."

  /** `parsed` is the result of reading the file; `fileExists` is `config_path.is_file()`. */
  function DetermineConfig(parsed: Result<Config>, subcommand: Subcommand, fileExists: bool,
                           assumeYes: bool, reply: Confirm.Reply): (r: Outcome)
    requires parsed.Ok? && subcommand == GenerateConfigFile ==> Confirm.Answered(assumeYes, None, reply)
    ensures parsed.Ok? && subcommand != GenerateConfigFile ==> r == Outcome(false, parsed)
    ensures parsed.Ok? && subcommand == GenerateConfigFile ==>
              r == Confirm.WithConfirmation(assumeYes, None, reply, Outcome(true, Ok(Template())), Outcome(false, Ok(Default())))
    ensures parsed.Err? && (subcommand == GenerateConfigFile || !fileExists) ==>
              r == Confirm.WithConfirmation(assumeYes, Some(true), reply, Outcome(true, Ok(Template())),
                                            Outcome(false, Err("No config file.")))
    ensures parsed.Err? && subcommand != GenerateConfigFile && fileExists ==> r == Outcome(false, Err(BrokenFile))
  {
    match parsed
    case Ok(c) =>
      if subcommand == GenerateConfigFile then
        Confirm.WithConfirmation(assumeYes, None, reply, Outcome(true, Ok(Template())), Outcome(false, Ok(Default())))
      else Outcome(false, Ok(c))
    case Err(_) =>
      if subcommand == GenerateConfigFile || !fileExists then
        Confirm.WithConfirmation(assumeYes, Some(true), reply, Outcome(true, Ok(Template())),
                                 Outcome(false, Err("No config file.")))
      else Outcome(false, Err(BrokenFile))
  }

  /** The file is only ever generated when asked for or when it is missing, and a generated
      file always comes with the template configuration. */
  lemma GenerationOnlyWhenAskedOrMissing(parsed: Result<Config>, subcommand: Subcommand, fileExists: bool,
                                         assumeYes: bool, reply: Confirm.Reply)
    requires parsed.Ok? && subcommand == GenerateConfigFile ==> Confirm.Answered(assumeYes, None, reply)
    ensures var r := DetermineConfig(parsed, subcommand, fileExists, assumeYes, reply);
            && (r.generate ==> subcommand == GenerateConfigFile || (parsed.Err? && !fileExists))
            && (r.generate ==> r.config == Ok(Template()))
            && (!r.generate && r.config.Ok? ==> r.config == parsed || r.config == Ok(Default()))
  {
  }

  /** With `--assume-yes` startup only fails on a file that exists but does not parse. */
  lemma AssumeYesFailsOnlyOnBrokenFile(parsed: Result<Config>, subcommand: Subcommand, fileExists: bool,
                                       reply: Confirm.Reply)
    ensures var r := DetermineConfig(parsed, subcommand, fileExists, true, reply);
            r.config.Err? <==> parsed.Err? && subcommand != GenerateConfigFile && fileExists
  {
  }
}
