/** org.avaje.docker.commands.DbConfigFactory: building a DbConfig from properties, with the
    defaults for the named platform applied first, and choosing the command set for a
    configured platform. */
module DbConfigFactory {
  import opened JavaText
  import opened Runtime

  /** The DbConfig fields the defaults set; None is a field still null. */
  datatype Settings = Settings(
    image: Option<string>,
    name: Option<string>,
    dbPort: Option<string>,
    internalPort: Option<string>,
    tmpfs: Option<string>)

  /** What has been applied to a DbConfig, in order. */
  datatype Step = PostgresDefaultsApplied | PropertiesApplied(properties: map<string, string>)

  datatype ConfigState = ConfigState(settings: Settings, steps: seq<Step>)

  /** The postgres defaults: image, container name, host port, container port and a tmpfs mount
      for the data directory. */
  const PostgresSettings := Settings(
    Some("postgres:9.6.4"), Some("ut_postgres"), Some("6432"), Some("5432"),
    Some("/var/lib/postgresql/data:rw"))

  /** Which defaults applyDefaults applies: none for mysql and oracle (their defaults are empty),
      postgres defaults for postgres and for any other platform. The comparison ignores case but
      not surrounding blanks. */
  datatype Defaults = PostgresDefaults | NoDefaults

  function DefaultsFor(dbType: string): (d: Defaults)
    ensures d == NoDefaults <==> EqualsIgnoreCase("mysql", dbType) || EqualsIgnoreCase("oracle", dbType)
  {
    if EqualsIgnoreCase("postgres", dbType) then PostgresDefaults
    else if EqualsIgnoreCase("mysql", dbType) then NoDefaults
    else if EqualsIgnoreCase("oracle", dbType) then NoDefaults
    else PostgresDefaults
  }

  /** Platform names that differ only in case get the same defaults. */
  lemma DefaultsIgnoreCase(a: string, b: string)
    requires EqualsIgnoreCase(a, b)
    ensures DefaultsFor(a) == DefaultsFor(b)
  {
    EqualsIgnoreCaseIsLowerEquality(a, b);
    EqualsIgnoreCaseIsLowerEquality("mysql", a);
    EqualsIgnoreCaseIsLowerEquality("mysql", b);
    EqualsIgnoreCaseIsLowerEquality("oracle", a);
    EqualsIgnoreCaseIsLowerEquality("oracle", b);
  }

  function ApplyPostgresDefaultsS(st: ConfigState): ConfigState {
    ConfigState(PostgresSettings, st.steps + [PostgresDefaultsApplied])
  }

  function ApplyDefaultsS(dbType: string, st: ConfigState): ConfigState {
    if DefaultsFor(dbType) == PostgresDefaults then ApplyPostgresDefaultsS(st) else st
  }

  /** createWithDefaults: nothing is applied without properties or without a dbPlatform
      property; otherwise the platform's defaults, then the properties. */
  function CreateWithDefaultsS(properties: Option<map<string, string>>, initial: Settings): ConfigState {
    var st := ConfigState(initial, []);
    if properties.None? || "dbPlatform" !in properties.value then st
    else
      var withDefaults := ApplyDefaultsS(properties.value["dbPlatform"], st);
      withDefaults.(steps := withDefaults.steps + [PropertiesApplied(properties.value)])
  }

  /** With a dbPlatform property the properties are applied exactly once and last, after at most
      the postgres defaults, which are applied exactly when the platform is not mysql or oracle
      and then set all five fields; without one the config is left as created. */
  lemma CreateWithDefaultsMeaning(properties: Option<map<string, string>>, initial: Settings)
    ensures var st := CreateWithDefaultsS(properties, initial);
      if properties.None? || "dbPlatform" !in properties.value then
        st == ConfigState(initial, [])
      else
        var postgres := DefaultsFor(properties.value["dbPlatform"]) == PostgresDefaults;
        st.steps == (if postgres then [PostgresDefaultsApplied] else []) + [PropertiesApplied(properties.value)]
        && st.settings == (if postgres then PostgresSettings else initial)
        && (postgres <==> !EqualsIgnoreCase("mysql", properties.value["dbPlatform"])
                          && !EqualsIgnoreCase("oracle", properties.value["dbPlatform"]))
  {
  }

  /** The command set createCommands picks. */
  datatype Platform = PostgresCommands | MySqlCommands

  /** createCommands: the platform lower-cased and trimmed selects postgres or mysql; anything
      else is rejected, naming the normalised platform. */
  function CreateCommands(platform: string): (r: Outcome<Platform>)
    ensures r == Ok(PostgresCommands) <==> Trim(Lower(platform)) == "postgres"
    ensures r == Ok(MySqlCommands) <==> Trim(Lower(platform)) == "mysql"
    ensures r.Raised? ==> r.failure == IllegalArgument("Unknown DB platform " + Trim(Lower(platform)))
  {
    var p := Trim(Lower(platform));
    if p == "postgres" then Ok(PostgresCommands)
    else if p == "mysql" then Ok(MySqlCommands)
    else Raised(IllegalArgument("Unknown DB platform " + p))
  }

  /** createCommands ignores case and blanks around the platform, in the selection and in the
      error message. */
  lemma CreateCommandsIgnoresCaseAndPadding(left: string, platform: string, right: string)
    requires Blank(left) && Blank(right)
    ensures CreateCommands(left + platform + right) == CreateCommands(platform)
    ensures CreateCommands(Lower(platform)) == CreateCommands(platform)
  {
    NormalizeIgnoresCaseAndPadding(left, platform, right);
  }

  /** The two normalisations disagree: a mysql platform with blanks around it selects the
      mysql commands, but gets the postgres defaults, since applyDefaults does not trim. */
  lemma PaddedMySqlGetsPostgresDefaults(left: string, right: string)
    requires Blank(left) && Blank(right) && left != []
    ensures CreateCommands(left + "mysql" + right) == Ok(MySqlCommands)
    ensures DefaultsFor(left + "mysql" + right) == PostgresDefaults
  {
    var s := left + "mysql" + right;
    PaddedNormalForm(left, "mysql", right);
    assert s[0] == left[0];
    BlankStartDiffers("postgres", s);
    BlankStartDiffers("mysql", s);
    BlankStartDiffers("oracle", s);
  }

  /* ---- the DbConfig object ---- */

  class DbConfig {
    var settings: Settings
    var steps: seq<Step>

    function Model(): ConfigState
      reads this
    {
      ConfigState(settings, steps)
    }

    /** new DbConfig(): its field initialisers are not part of this model, so the initial values
        are given. */
    constructor (initial: Settings)
      ensures Model() == ConfigState(initial, [])
    {
      settings := initial;
      steps := [];
    }

    /** withProperties: recorded in order; which fields it sets is not part of this model. */
    method WithProperties(properties: map<string, string>)
      modifies this
      ensures Model() == ConfigState(old(settings), old(steps) + [PropertiesApplied(properties)])
    {
      steps := steps + [PropertiesApplied(properties)];
    }
  }

  /** applyPostgresDefaults: overwrites the five fields. */
  method ApplyPostgresDefaults(config: DbConfig)
    modifies config
    ensures config.Model() == ApplyPostgresDefaultsS(old(config.Model()))
  {
    config.settings := Settings(
      Some("postgres:9.6.4"), Some("ut_postgres"), Some("6432"), Some("5432"),
      Some("/var/lib/postgresql/data:rw"));
    config.steps := config.steps + [PostgresDefaultsApplied];
  }

  /** applyDefaults: the platform's defaults, postgres when the platform is unknown. */
  method ApplyDefaults(dbType: string, config: DbConfig)
    modifies config
    ensures config.Model() == ApplyDefaultsS(dbType, old(config.Model()))
  {
    if EqualsIgnoreCase("postgres", dbType) {
      ApplyPostgresDefaults(config);
    } else if EqualsIgnoreCase("mysql", dbType) {
      // mysql defaults: none
    } else if EqualsIgnoreCase("oracle", dbType) {
      // oracle defaults: none
    } else {
      ApplyPostgresDefaults(config);
    }
  }

  /** createWithDefaults (and the static create that delegates to it); None stands for null
      properties. */
  method CreateWithDefaults(properties: Option<map<string, string>>, initial: Settings) returns (config: DbConfig)
    ensures fresh(config)
    ensures config.Model() == CreateWithDefaultsS(properties, initial)
  {
    config := new DbConfig(initial);
    if properties.Some? {
      if "dbPlatform" in properties.value {
        ApplyDefaults(properties.value["dbPlatform"], config);
        config.WithProperties(properties.value);
      }
    }
  }
}
