/**
  The command configuration (`src/config.rs`): eight (label, command) pairs,
  read from `commands.json` at start-up and replaced by a built-in default set
  whenever the file is missing, unreadable, unparsable or holds the wrong
  number of entries.

  Reading the file and JSON (de)serialisation are outside the model: what the
  file system and the JSON library did is passed in as a `FileRead` and a
  `SaveEnv`, and `LoadConfig` returns the command list together with the
  write-back it attempted and the diagnostic it logged.
 */
module Config {

  import opened Options

  /** One launchable action; `title` is the source's `label` (a reserved word in Dafny). */
  datatype CommandEntry = CommandEntry(title: string, command: string)

  datatype Config = Config(commands: seq<CommandEntry>)

  /** The number of entries a configuration must hold to be used. */
  const RequiredCommands: nat := 8

  /** The built-in configuration (`Config::default`). */
  function Default(): (c: Config)
    ensures |c.commands| == RequiredCommands
    ensures forall i, j :: 0 <= i < j < |c.commands| ==> c.commands[i].title != c.commands[j].title
    ensures forall i, j :: 0 <= i < j < |c.commands| ==> c.commands[i].command != c.commands[j].command
    ensures forall i :: 0 <= i < |c.commands| ==> c.commands[i].title != [] && c.commands[i].command != []
  {
    Config([
      CommandEntry("Terminal", "kitty"),
      CommandEntry("Firefox", "firefox"),
      CommandEntry("Files", "thunar"),
      CommandEntry("VS Code", "code"),
      CommandEntry("Spotify", "spotify"),
      CommandEntry("Discord", "discord"),
      CommandEntry("Screenshot", "grim -g \"$(slurp)\" - | wl-copy"),
      CommandEntry("Lock", "hyprlock")
    ])
  }

  /** What reading and parsing the configuration file produced. */
  datatype FileRead =
    /** `fs::read_to_string` failed: the file is missing or unreadable. */
    | ReadFailed
    /** The file was read but `serde_json` rejected it. */
    | Unparsable
    /** The file parsed to `config`. */
    | Parsed(config: Config)

  /** Whether serialising and writing a configuration would succeed. */
  datatype SaveEnv = SaveEnv(serializes: bool, writes: bool)

  /** What `save_config` reports (it only logs; it never fails its caller). */
  datatype SaveStatus = Saved | WriteFailed | SerializeFailed

  /** A write-back: the configuration handed to `save_config` and how it went. */
  datatype SaveAttempt = SaveAttempt(config: Config, status: SaveStatus)

  /** The diagnostics `load_config` itself logs before falling back. */
  datatype Warning = WrongCount | ParseFailure

  /** What `load_config` returns, writes and logs. */
  datatype Loaded = Loaded(commands: seq<CommandEntry>, saved: Option<SaveAttempt>, warning: Option<Warning>)

  /** A file whose contents are used as they are. */
  predicate Usable(read: FileRead) {
    read.Parsed? && |read.config.commands| == RequiredCommands
  }

  /** `save_config`: serialise, then write; each failure is reported and nothing else. */
  function SaveConfig(config: Config, env: SaveEnv): (a: SaveAttempt)
    ensures a.config == config
    ensures a.status == Saved <==> env.serializes && env.writes
    ensures a.status == SerializeFailed <==> !env.serializes
  {
    if !env.serializes then SaveAttempt(config, SerializeFailed)
    else if !env.writes then SaveAttempt(config, WriteFailed)
    else SaveAttempt(config, Saved)
  }

  /** `load_config`: the file's commands when usable, otherwise the defaults, written back. */
  function LoadConfig(read: FileRead, env: SaveEnv): (r: Loaded)
    ensures |r.commands| == RequiredCommands
    ensures r.saved.None? <==> Usable(read)
    ensures Usable(read) ==> r.commands == read.config.commands
    ensures !Usable(read) ==> r.commands == Default().commands
    ensures r.saved.Some? ==> r.saved.value.config == Default()
    ensures r.warning == Some(ParseFailure) <==> read.Unparsable?
    ensures r.warning == Some(WrongCount) <==> read.Parsed? && !Usable(read)
    ensures r.saved.Some? ==> r.saved.value == SaveConfig(Default(), env)
  {
    match read
    case Parsed(config) =>
      if |config.commands| == RequiredCommands then
        Loaded(config.commands, None, None)
      else
        FallBack(env, Some(WrongCount))
    case Unparsable =>
      FallBack(env, Some(ParseFailure))
    case ReadFailed =>
      FallBack(env, None)
  }

  /** The fallback shared by the three failure branches: save and return the defaults. */
  function FallBack(env: SaveEnv, warning: Option<Warning>): (r: Loaded)
    ensures r.commands == Default().commands && r.warning == warning
    ensures r.saved == Some(SaveConfig(Default(), env))
  {
    var default := Default();
    var attempt := SaveConfig(default, env);
    Loaded(default.commands, Some(attempt), warning)
  }

  /** A failed write-back is only logged: the commands returned do not depend on it. */
  lemma SaveOutcomeIrrelevant(read: FileRead, env1: SaveEnv, env2: SaveEnv)
    ensures LoadConfig(read, env1).commands == LoadConfig(read, env2).commands
    ensures LoadConfig(read, env1).warning == LoadConfig(read, env2).warning
  {
  }

  /**
    Loading is stable: if the file next parses to what a load returned (which is
    what the write-back stores, when serialisation round-trips), the next load
    returns the same commands and writes nothing.
   */
  lemma LoadIsStable(read: FileRead, env1: SaveEnv, env2: SaveEnv)
    ensures var first := LoadConfig(read, env1);
            LoadConfig(Parsed(Config(first.commands)), env2) == Loaded(first.commands, None, None)
  {
  }

  /** After a successful write-back of the defaults, a file that reads back as written is used as is. */
  lemma FallBackThenReload(read: FileRead, env: SaveEnv, env2: SaveEnv)
    requires !Usable(read) && env.serializes && env.writes
    ensures var first := LoadConfig(read, env);
            && first.saved == Some(SaveAttempt(Default(), Saved))
            && LoadConfig(Parsed(first.saved.value.config), env2).saved.None?
            && LoadConfig(Parsed(first.saved.value.config), env2).commands == first.commands
  {
  }
}
