/** org.avaje.docker.commands.PostgresContainer: start in one of three modes (create,
    dropCreate, container); create and drop the user and the database behind "defined" and
    existence guards; create the extensions; the `docker run` arguments. */
module PostgresContainer {
  import opened JavaText
  import opened Polling
  import opened Runtime
  import opened BaseContainer
  import opened Postgres
  import DbContainer

  /** The configuration fields the container reads. dbExtensions and tmpfs may be null. */
  datatype ContainerConfig = ContainerConfig(
    docker: string,
    containerName: string,
    port: string,
    internalPort: string,
    image: string,
    startMode: string,
    maxReadyAttempts: int,
    dbName: string,
    dbUser: string,
    dbPassword: string,
    dbAdminPassword: string,
    dbExtensions: Option<string>,
    inMemory: bool,
    tmpfs: Option<string>)

  /** userDefined / databaseDefined: the name is not blank. */
  predicate UserDefined(c: ContainerConfig) {
    DbContainer.Defined(Some(c.dbUser))
  }

  predicate DatabaseDefined(c: ContainerConfig) {
    DbContainer.Defined(Some(c.dbName))
  }

  /** isDefined: not null and not empty (a blank string is defined here). */
  predicate IsDefined(value: Option<string>) {
    value.Some? && value.value != ""
  }

  /** The extension names: split(",") of the list when it is defined, none otherwise. */
  function ExtensionPieces(c: ContainerConfig): (pieces: seq<string>)
    ensures !IsDefined(c.dbExtensions) ==> pieces == []
    ensures IsDefined(c.dbExtensions) ==> pieces == JavaSplit(c.dbExtensions.value)
  {
    if IsDefined(c.dbExtensions) then JavaSplit(c.dbExtensions.value) else []
  }

  /** runProcess: detached run with name and port mapping, `--tmpfs` only for an in-memory
      database with a tmpfs setting, the admin password entry, and the image. */
  function RunArgs(c: ContainerConfig): seq<string> {
    [c.docker, "run", "-d", "--name", c.containerName, "-p", c.port + ":" + c.internalPort]
    + (if c.inMemory && c.tmpfs.Some? then ["--tmpfs", c.tmpfs.value] else [])
    + ["-e", c.dbAdminPassword, "-d", c.image]
  }

  /** `--tmpfs <dir>` follows the port mapping exactly when the database is in memory and a
      tmpfs directory is set; the port mapping is port and internal port joined by a colon; the
      image is the last argument. */
  lemma RunArgsShape(c: ContainerConfig)
    ensures var args := RunArgs(c);
      |args| == (if c.inMemory && c.tmpfs.Some? then 13 else 11)
      && args[..7] == [c.docker, "run", "-d", "--name", c.containerName, "-p", c.port + ":" + c.internalPort]
      && (c.inMemory && c.tmpfs.Some? ==> args[7] == "--tmpfs" && args[8] == c.tmpfs.value)
      && args[|args| - 4..] == ["-e", c.dbAdminPassword, "-d", c.image]
      && args[|args| - 1] == c.image
  {
  }

  /* ---- guarded steps ---- */

  /** createUser(checkExists) / createDatabase(checkExists): nothing unless defined; with the
      check, the existence query runs first and an existing one is left alone; the create
      statement succeeds on exactly two output lines. */
  function CreateIfW(target: string, defined: bool, checkExists: bool, query: PgSql, create: PgSql, w: World, o: PgOracle): (World, Outcome<bool>) {
    if !defined then (w, Ok(false))
    else if checkExists then
      var (w1, present) := ExistsW(w, target, o, query);
      if present.Raised? then (w1, present)
      else if present.value then (w1, Ok(false))
      else var (w2, ok) := ExecW(w1, target, o, create, 2); (w2, Ok(ok))
    else
      var (w2, ok) := ExecW(w, target, o, create, 2); (w2, Ok(ok))
  }

  /** dropDatabaseIfExists / dropUserIfExists: nothing unless defined and present; the drop
      statement succeeds on exactly one output line. */
  function DropIfExistsW(target: string, defined: bool, query: PgSql, drop: PgSql, w: World, o: PgOracle): (World, Outcome<bool>) {
    if !defined then (w, Ok(false))
    else
      var (w1, present) := ExistsW(w, target, o, query);
      if present.Raised? then (w1, present)
      else if !present.value then (w1, Ok(false))
      else var (w2, ok) := ExecW(w1, target, o, drop, 1); (w2, Ok(ok))
  }

  /** The create statement is issued exactly when the value is defined and either no check is
      asked for or the query says it is absent; then the result is the two-line rule. Otherwise
      the result is false, or the query's failure when its output is unreadable. The registry of
      containers never changes, and nothing at all happens when the value is undefined. */
  lemma CreateIfMeaning(target: string, defined: bool, checkExists: bool, query: PgSql, create: PgSql, w: World, o: PgOracle)
    requires !query.Mutates() && create.Mutates()
    ensures var (w', r) := CreateIfW(target, defined, checkExists, query, create, w, o);
      var issued := defined && (!checkExists || ExistsAnswer(Reply(o, query)) == Ok(false));
      w'.containers == w.containers
      && Provisioning(w'.trace) == Provisioning(w.trace) + (if issued then [create] else [])
      && (issued ==> r == Ok(|Reply(o, create)| == 2))
      && (!issued && defined && checkExists && ExistsAnswer(Reply(o, query)).Raised? ==>
            r == Raised(UnexpectedResults(Reply(o, query))))
      && (!issued && !(defined && checkExists && ExistsAnswer(Reply(o, query)).Raised?) ==> r == Ok(false))
      && (!defined ==> w' == w)
  {
    ProvisioningIssue(w.trace, Psql(target, query));
    ProvisioningIssue(w.trace, Psql(target, create));
    ProvisioningIssue(w.trace + [Psql(target, query)], Psql(target, create));
  }

  /** The drop statement is issued exactly when the value is defined and the query says it is
      present; then the result is the one-line rule, otherwise false or the query's failure. */
  lemma DropIfExistsMeaning(target: string, defined: bool, query: PgSql, drop: PgSql, w: World, o: PgOracle)
    requires !query.Mutates() && drop.Mutates()
    ensures var (w', r) := DropIfExistsW(target, defined, query, drop, w, o);
      var issued := defined && ExistsAnswer(Reply(o, query)) == Ok(true);
      w'.containers == w.containers
      && Provisioning(w'.trace) == Provisioning(w.trace) + (if issued then [drop] else [])
      && (issued ==> r == Ok(|Reply(o, drop)| == 1))
      && (!issued && defined && ExistsAnswer(Reply(o, query)).Raised? ==>
            r == Raised(UnexpectedResults(Reply(o, query))))
      && (!issued && !(defined && ExistsAnswer(Reply(o, query)).Raised?) ==> r == Ok(false))
      && (!defined ==> w' == w)
  {
    ProvisioningIssue(w.trace, Psql(target, query));
    ProvisioningIssue(w.trace + [Psql(target, query)], Psql(target, drop));
  }

  function CreateUserW(c: ContainerConfig, checkExists: bool, w: World, o: PgOracle): (World, Outcome<bool>) {
    CreateIfW(c.containerName, UserDefined(c), checkExists, RoleExists(c.dbUser), CreateRole(c.dbUser, c.dbPassword), w, o)
  }

  function CreateDatabaseW(c: ContainerConfig, checkExists: bool, w: World, o: PgOracle): (World, Outcome<bool>) {
    CreateIfW(c.containerName, DatabaseDefined(c), checkExists, PgSql.DatabaseExists(c.dbName), PgSql.CreateDatabase(c.dbName, c.dbUser), w, o)
  }

  function DropDatabaseIfExistsW(c: ContainerConfig, w: World, o: PgOracle): (World, Outcome<bool>) {
    DropIfExistsW(c.containerName, DatabaseDefined(c), PgSql.DatabaseExists(c.dbName), PgSql.DropDatabase(c.dbName), w, o)
  }

  function DropUserIfExistsW(c: ContainerConfig, w: World, o: PgOracle): (World, Outcome<bool>) {
    DropIfExistsW(c.containerName, UserDefined(c), RoleExists(c.dbUser), DropRole(c.dbUser), w, o)
  }

  /* ---- the flows ---- */

  /** startIfNeeded followed by waitForDatabaseReady (pg_isready against the internal port). */
  function ReadyW(c: ContainerConfig, w: World, ready: Poll): (World, bool) {
    var (ok, n) := WaitOutcome(c.maxReadyAttempts, ready);
    (ProbesW(StartIfNeededW(w, c.containerName, RunArgs(c)), c.containerName, c.internalPort, n), ok)
  }

  function ReadyCommands(c: ContainerConfig, w: World, ready: Poll): seq<Command> {
    StartCommands(StateOf(w, c.containerName), c.containerName, RunArgs(c))
    + Repeat(PgIsReady(c.containerName, c.internalPort), WaitOutcome(c.maxReadyAttempts, ready).1)
  }

  /** Bringing the container up and waiting for it issues no psql statement and leaves it
      running. */
  lemma ReadyMeaning(c: ContainerConfig, w: World, ready: Poll)
    ensures var (w', ok) := ReadyW(c, w, ready);
      ok == WaitOutcome(c.maxReadyAttempts, ready).0
      && w'.trace == w.trace + ReadyCommands(c, w, ready)
      && !AnyPsql(ReadyCommands(c, w, ready))
      && StateOf(w', c.containerName) == Running
      && Provisioning(w'.trace) == Provisioning(w.trace)
  {
    var n := WaitOutcome(c.maxReadyAttempts, ready).1;
    var s := StartCommands(StateOf(w, c.containerName), c.containerName, RunArgs(c));
    var p := Repeat(PgIsReady(c.containerName, c.internalPort), n);
    StartIfNeededMeaning(w, c.containerName, RunArgs(c));
    StartCommandsNoPsql(StateOf(w, c.containerName), c.containerName, RunArgs(c));
    ProbesNoPsql(c.containerName, c.internalPort, n);
    NoPsqlConcat(s, p);
    NoPsqlNoProvisioning(s + p);
    ProvisioningAppend(w.trace, s + p);
    assert w.trace + s + p == w.trace + (s + p);
  }

  /** startWithCreate. The results of createUser and createDatabase are ignored; only an
      exception from an existence query stops the flow. */
  function StartWithCreateW(c: ContainerConfig, w: World, o: PgOracle, ready: Poll, connect: Poll): (World, Outcome<bool>) {
    var (w1, isReady) := ReadyW(c, w, ready);
    if !isReady then (w1, Ok(false))
    else
      var (w2, user) := CreateUserW(c, true, w1, o);
      if user.Raised? then (w2, user)
      else
        var (w3, db) := CreateDatabaseW(c, true, w2, o);
        if db.Raised? then (w3, db)
        else (ExtensionsW(w3, c.containerName, c.dbName, ExtensionPieces(c)), Ok(WaitOutcome(ConnectivityAttempts, connect).0))
  }

  /** The drop half of startWithDropCreate: the database if it exists, then the user. */
  function DropBothW(c: ContainerConfig, w: World, o: PgOracle): (World, Option<Failure>) {
    var (w1, db) := DropDatabaseIfExistsW(c, w, o);
    if db.Raised? then (w1, Some(db.failure))
    else
      var (w2, user) := DropUserIfExistsW(c, w1, o);
      if user.Raised? then (w2, Some(user.failure)) else (w2, None)
  }

  /** startWithDropCreate: drops, then creates without existence checks (which cannot raise). */
  function StartWithDropCreateW(c: ContainerConfig, w: World, o: PgOracle, ready: Poll, connect: Poll): (World, Outcome<bool>) {
    var (w1, isReady) := ReadyW(c, w, ready);
    if !isReady then (w1, Ok(false))
    else
      var (w2, failure) := DropBothW(c, w1, o);
      if failure.Some? then (w2, Raised(failure.value))
      else
        var w3 := CreateUserW(c, false, w2, o).0;
        var w4 := CreateDatabaseW(c, false, w3, o).0;
        (ExtensionsW(w4, c.containerName, c.dbName, ExtensionPieces(c)), Ok(WaitOutcome(ConnectivityAttempts, connect).0))
  }

  /** startContainerOnly. */
  function StartContainerOnlyW(c: ContainerConfig, w: World, ready: Poll, connect: Poll): (World, Outcome<bool>) {
    var (w1, isReady) := ReadyW(c, w, ready);
    if !isReady then (w1, Ok(false)) else (w1, Ok(WaitOutcome(ConnectivityAttempts, connect).0))
  }

  /** start: the flow the start mode selects. */
  function StartW(c: ContainerConfig, w: World, o: PgOracle, ready: Poll, connect: Poll): (World, Outcome<bool>) {
    match DbContainer.ModeOf(c.startMode)
    case Create => StartWithCreateW(c, w, o, ready, connect)
    case DropCreate => StartWithDropCreateW(c, w, o, ready, connect)
    case ContainerOnly => StartContainerOnlyW(c, w, ready, connect)
  }

  /* ---- what the flows guarantee ---- */

  /** In every mode, a database that never becomes ready makes start return false after
      bringing the container up and probing, with no psql statement issued. */
  lemma StartNotReady(c: ContainerConfig, w: World, o: PgOracle, ready: Poll, connect: Poll)
    requires !WaitOutcome(c.maxReadyAttempts, ready).0
    ensures var (w', r) := StartW(c, w, o, ready, connect);
      r == Ok(false) && w'.trace == w.trace + ReadyCommands(c, w, ready)
      && !AnyPsql(ReadyCommands(c, w, ready))
  {
    ReadyMeaning(c, w, ready);
  }

  /** Container-only mode never issues an existence, create or drop statement, and returns true
      iff both waits succeed. */
  lemma StartContainerOnlyNoPsql(c: ContainerConfig, w: World, ready: Poll, connect: Poll)
    ensures var (w', r) := StartContainerOnlyW(c, w, ready, connect);
      w'.trace == w.trace + ReadyCommands(c, w, ready)
      && !AnyPsql(ReadyCommands(c, w, ready))
      && StateOf(w', c.containerName) == Running
      && r == Ok(WaitOutcome(c.maxReadyAttempts, ready).0 && WaitOutcome(ConnectivityAttempts, connect).0)
  {
    ReadyMeaning(c, w, ready);
  }

  /** Once ready, with readable existence answers, startWithCreate creates the user when defined
      and missing, then the database when defined and missing, then every extension; it returns
      the connectivity wait's result whatever the create statements printed. */
  lemma StartWithCreateProvisions(c: ContainerConfig, w: World, o: PgOracle, ready: Poll, connect: Poll,
                                  userExists: bool, dbExists: bool)
    requires WaitOutcome(c.maxReadyAttempts, ready).0
    requires UserDefined(c) ==> ExistsAnswer(Reply(o, RoleExists(c.dbUser))) == Ok(userExists)
    requires DatabaseDefined(c) ==> ExistsAnswer(Reply(o, PgSql.DatabaseExists(c.dbName))) == Ok(dbExists)
    ensures var (w', r) := StartWithCreateW(c, w, o, ready, connect);
      r == Ok(WaitOutcome(ConnectivityAttempts, connect).0)
      && StateOf(w', c.containerName) == Running
      && Provisioning(w'.trace) == Provisioning(w.trace)
           + (if UserDefined(c) && !userExists then [CreateRole(c.dbUser, c.dbPassword)] else [])
           + (if DatabaseDefined(c) && !dbExists then [PgSql.CreateDatabase(c.dbName, c.dbUser)] else [])
           + ExtensionStatements(c.dbName, ExtensionPieces(c))
  {
    ReadyMeaning(c, w, ready);
    var pieces := ExtensionPieces(c);
    var w1 := ReadyW(c, w, ready).0;
    CreateIfMeaning(c.containerName, UserDefined(c), true, RoleExists(c.dbUser), CreateRole(c.dbUser, c.dbPassword), w1, o);
    var w2 := CreateUserW(c, true, w1, o).0;
    CreateIfMeaning(c.containerName, DatabaseDefined(c), true, PgSql.DatabaseExists(c.dbName), PgSql.CreateDatabase(c.dbName, c.dbUser), w2, o);
    var w3 := CreateDatabaseW(c, true, w2, o).0;
    ProvisioningAppend(w3.trace, ExtensionCommands(c.containerName, c.dbName, pieces));
    ExtensionProvisioning(c.containerName, c.dbName, pieces);
  }

  /** With readable answers, the drop half drops the database (when defined and present) before
      the user (when defined and present), and changes nothing else. */
  lemma DropBothMeaning(c: ContainerConfig, w: World, o: PgOracle, userExists: bool, dbExists: bool)
    requires UserDefined(c) ==> ExistsAnswer(Reply(o, RoleExists(c.dbUser))) == Ok(userExists)
    requires DatabaseDefined(c) ==> ExistsAnswer(Reply(o, PgSql.DatabaseExists(c.dbName))) == Ok(dbExists)
    ensures var (w', failure) := DropBothW(c, w, o);
      failure.None? && w'.containers == w.containers
      && Provisioning(w'.trace) == Provisioning(w.trace)
           + (if DatabaseDefined(c) && dbExists then [PgSql.DropDatabase(c.dbName)] else [])
           + (if UserDefined(c) && userExists then [DropRole(c.dbUser)] else [])
  {
    DropIfExistsMeaning(c.containerName, DatabaseDefined(c), PgSql.DatabaseExists(c.dbName), PgSql.DropDatabase(c.dbName), w, o);
    var w1 := DropDatabaseIfExistsW(c, w, o).0;
    DropIfExistsMeaning(c.containerName, UserDefined(c), RoleExists(c.dbUser), DropRole(c.dbUser), w1, o);
  }

  /** Once ready, with readable answers, startWithDropCreate drops the database before the
      user, then creates the user and the database whenever they are defined (no existence
      check), then every extension; it returns the connectivity wait's result. */
  lemma StartWithDropCreateProvisions(c: ContainerConfig, w: World, o: PgOracle, ready: Poll, connect: Poll,
                                      userExists: bool, dbExists: bool)
    requires WaitOutcome(c.maxReadyAttempts, ready).0
    requires UserDefined(c) ==> ExistsAnswer(Reply(o, RoleExists(c.dbUser))) == Ok(userExists)
    requires DatabaseDefined(c) ==> ExistsAnswer(Reply(o, PgSql.DatabaseExists(c.dbName))) == Ok(dbExists)
    ensures var (w', r) := StartWithDropCreateW(c, w, o, ready, connect);
      r == Ok(WaitOutcome(ConnectivityAttempts, connect).0)
      && StateOf(w', c.containerName) == Running
      && Provisioning(w'.trace) == Provisioning(w.trace)
           + (if DatabaseDefined(c) && dbExists then [PgSql.DropDatabase(c.dbName)] else [])
           + (if UserDefined(c) && userExists then [DropRole(c.dbUser)] else [])
           + (if UserDefined(c) then [CreateRole(c.dbUser, c.dbPassword)] else [])
           + (if DatabaseDefined(c) then [PgSql.CreateDatabase(c.dbName, c.dbUser)] else [])
           + ExtensionStatements(c.dbName, ExtensionPieces(c))
  {
    ReadyMeaning(c, w, ready);
    var pieces := ExtensionPieces(c);
    var w1 := ReadyW(c, w, ready).0;
    DropBothMeaning(c, w1, o, userExists, dbExists);
    var w2 := DropBothW(c, w1, o).0;
    CreateIfMeaning(c.containerName, UserDefined(c), false, RoleExists(c.dbUser), CreateRole(c.dbUser, c.dbPassword), w2, o);
    var w3 := CreateUserW(c, false, w2, o).0;
    CreateIfMeaning(c.containerName, DatabaseDefined(c), false, PgSql.DatabaseExists(c.dbName), PgSql.CreateDatabase(c.dbName, c.dbUser), w3, o);
    var w4 := CreateDatabaseW(c, false, w3, o).0;
    ProvisioningAppend(w4.trace, ExtensionCommands(c.containerName, c.dbName, pieces));
    ExtensionProvisioning(c.containerName, c.dbName, pieces);
  }

  /** Unlike the older controller, an empty extension list issues nothing, while a list made of
      blanks is defined and issues its pieces as they are. */
  lemma ExtensionListGuard(c: ContainerConfig)
    ensures c.dbExtensions == Some("") ==> ExtensionPieces(c) == []
    ensures c.dbExtensions == Some(" ") ==> ExtensionPieces(c) == [" "]
  {
    if c.dbExtensions == Some(" ") {
      assert CommaFree(" ");
    }
  }

  /** An unreadable answer to the user query makes startWithCreate raise before it changes
      anything in the database. */
  lemma StartWithCreateRaisesOnUserQuery(c: ContainerConfig, w: World, o: PgOracle, ready: Poll, connect: Poll)
    requires WaitOutcome(c.maxReadyAttempts, ready).0
    requires UserDefined(c) && |Reply(o, RoleExists(c.dbUser))| < 3
    ensures var (w', r) := StartWithCreateW(c, w, o, ready, connect);
      r == Raised(UnexpectedResults(Reply(o, RoleExists(c.dbUser))))
      && Provisioning(w'.trace) == Provisioning(w.trace)
  {
    ReadyMeaning(c, w, ready);
    var w1 := ReadyW(c, w, ready).0;
    CreateIfMeaning(c.containerName, UserDefined(c), true, RoleExists(c.dbUser), CreateRole(c.dbUser, c.dbPassword), w1, o);
  }

  /** An unreadable answer to the database query makes startWithCreate raise after it has
      already created the user when the user was defined and missing: that create stays. */
  lemma StartWithCreateRaisesOnDatabaseQuery(c: ContainerConfig, w: World, o: PgOracle, ready: Poll, connect: Poll,
                                             userExists: bool)
    requires WaitOutcome(c.maxReadyAttempts, ready).0
    requires UserDefined(c) ==> ExistsAnswer(Reply(o, RoleExists(c.dbUser))) == Ok(userExists)
    requires DatabaseDefined(c) && |Reply(o, PgSql.DatabaseExists(c.dbName))| < 3
    ensures var (w', r) := StartWithCreateW(c, w, o, ready, connect);
      r == Raised(UnexpectedResults(Reply(o, PgSql.DatabaseExists(c.dbName))))
      && Provisioning(w'.trace) == Provisioning(w.trace)
           + (if UserDefined(c) && !userExists then [CreateRole(c.dbUser, c.dbPassword)] else [])
  {
    ReadyMeaning(c, w, ready);
    var w1 := ReadyW(c, w, ready).0;
    CreateIfMeaning(c.containerName, UserDefined(c), true, RoleExists(c.dbUser), CreateRole(c.dbUser, c.dbPassword), w1, o);
    var w2 := CreateUserW(c, true, w1, o).0;
    CreateIfMeaning(c.containerName, DatabaseDefined(c), true, PgSql.DatabaseExists(c.dbName), PgSql.CreateDatabase(c.dbName, c.dbUser), w2, o);
  }

  /** An unreadable answer to the database query makes startWithDropCreate raise before it
      drops or creates anything. */
  lemma StartWithDropCreateRaisesOnDatabaseQuery(c: ContainerConfig, w: World, o: PgOracle, ready: Poll, connect: Poll)
    requires WaitOutcome(c.maxReadyAttempts, ready).0
    requires DatabaseDefined(c) && |Reply(o, PgSql.DatabaseExists(c.dbName))| < 3
    ensures var (w', r) := StartWithDropCreateW(c, w, o, ready, connect);
      r == Raised(UnexpectedResults(Reply(o, PgSql.DatabaseExists(c.dbName))))
      && Provisioning(w'.trace) == Provisioning(w.trace)
  {
    ReadyMeaning(c, w, ready);
    var w1 := ReadyW(c, w, ready).0;
    DropIfExistsMeaning(c.containerName, DatabaseDefined(c), PgSql.DatabaseExists(c.dbName), PgSql.DropDatabase(c.dbName), w1, o);
  }

  /** An unreadable answer to the user query makes startWithDropCreate raise after it has
      already dropped the database when it was defined and present: that drop stays and
      nothing is created. */
  lemma StartWithDropCreateRaisesOnUserQuery(c: ContainerConfig, w: World, o: PgOracle, ready: Poll, connect: Poll,
                                             dbExists: bool)
    requires WaitOutcome(c.maxReadyAttempts, ready).0
    requires DatabaseDefined(c) ==> ExistsAnswer(Reply(o, PgSql.DatabaseExists(c.dbName))) == Ok(dbExists)
    requires UserDefined(c) && |Reply(o, RoleExists(c.dbUser))| < 3
    ensures var (w', r) := StartWithDropCreateW(c, w, o, ready, connect);
      r == Raised(UnexpectedResults(Reply(o, RoleExists(c.dbUser))))
      && Provisioning(w'.trace) == Provisioning(w.trace)
           + (if DatabaseDefined(c) && dbExists then [PgSql.DropDatabase(c.dbName)] else [])
  {
    ReadyMeaning(c, w, ready);
    var w1 := ReadyW(c, w, ready).0;
    DropIfExistsMeaning(c.containerName, DatabaseDefined(c), PgSql.DatabaseExists(c.dbName), PgSql.DropDatabase(c.dbName), w1, o);
    var w2 := DropDatabaseIfExistsW(c, w1, o).0;
    DropIfExistsMeaning(c.containerName, UserDefined(c), RoleExists(c.dbUser), DropRole(c.dbUser), w2, o);
  }

  /* ---- which container the processes run in ---- */

  lemma CreateIfConfined(target: string, defined: bool, checkExists: bool, query: PgSql, create: PgSql, w: World, o: PgOracle)
    ensures ExecsConfined(w, CreateIfW(target, defined, checkExists, query, create, w, o).0, target)
  {
    ConfinedRefl(w, target);
    ExistsConfined(w, target, o, query);
    var w1 := ExistsW(w, target, o, query).0;
    ExecConfined(w1, target, o, create, 2);
    ConfinedTrans(w, w1, ExecW(w1, target, o, create, 2).0, target);
    ExecConfined(w, target, o, create, 2);
  }

  lemma DropIfExistsConfined(target: string, defined: bool, query: PgSql, drop: PgSql, w: World, o: PgOracle)
    ensures ExecsConfined(w, DropIfExistsW(target, defined, query, drop, w, o).0, target)
  {
    ConfinedRefl(w, target);
    ExistsConfined(w, target, o, query);
    var w1 := ExistsW(w, target, o, query).0;
    ExecConfined(w1, target, o, drop, 1);
    ConfinedTrans(w, w1, ExecW(w1, target, o, drop, 1).0, target);
  }

  lemma ReadyConfined(c: ContainerConfig, w: World, ready: Poll)
    ensures ExecsConfined(w, ReadyW(c, w, ready).0, c.containerName)
  {
    var w0 := StartIfNeededW(w, c.containerName, RunArgs(c));
    StartIfNeededConfined(w, c.containerName, RunArgs(c), c.containerName);
    ProbesConfined(w0, c.containerName, c.internalPort, WaitOutcome(c.maxReadyAttempts, ready).1);
    ConfinedTrans(w, w0, ReadyW(c, w, ready).0, c.containerName);
  }

  lemma StartWithCreateConfined(c: ContainerConfig, w: World, o: PgOracle, ready: Poll, connect: Poll)
    ensures ExecsConfined(w, StartWithCreateW(c, w, o, ready, connect).0, c.containerName)
  {
    var n := c.containerName;
    ReadyConfined(c, w, ready);
    var (w1, isReady) := ReadyW(c, w, ready);
    if isReady {
      var (w2, user) := CreateUserW(c, true, w1, o);
      CreateIfConfined(n, UserDefined(c), true, RoleExists(c.dbUser), CreateRole(c.dbUser, c.dbPassword), w1, o);
      ConfinedTrans(w, w1, w2, n);
      if user.Ok? {
        var (w3, db) := CreateDatabaseW(c, true, w2, o);
        CreateIfConfined(n, DatabaseDefined(c), true, PgSql.DatabaseExists(c.dbName), PgSql.CreateDatabase(c.dbName, c.dbUser), w2, o);
        ConfinedTrans(w, w2, w3, n);
        ExtensionsConfined(w3, n, c.dbName, ExtensionPieces(c));
        ConfinedTrans(w, w3, ExtensionsW(w3, n, c.dbName, ExtensionPieces(c)), n);
      }
    }
  }

  lemma DropBothConfined(c: ContainerConfig, w: World, o: PgOracle)
    ensures ExecsConfined(w, DropBothW(c, w, o).0, c.containerName)
  {
    var n := c.containerName;
    var (w1, db) := DropDatabaseIfExistsW(c, w, o);
    DropIfExistsConfined(n, DatabaseDefined(c), PgSql.DatabaseExists(c.dbName), PgSql.DropDatabase(c.dbName), w, o);
    if db.Ok? {
      DropIfExistsConfined(n, UserDefined(c), RoleExists(c.dbUser), DropRole(c.dbUser), w1, o);
      ConfinedTrans(w, w1, DropUserIfExistsW(c, w1, o).0, n);
    }
  }

  /** The creates and extensions that follow the drops in startWithDropCreate. */
  lemma CreateAllConfined(c: ContainerConfig, w: World, o: PgOracle)
    ensures var w1 := CreateUserW(c, false, w, o).0;
      var w2 := CreateDatabaseW(c, false, w1, o).0;
      ExecsConfined(w, ExtensionsW(w2, c.containerName, c.dbName, ExtensionPieces(c)), c.containerName)
  {
    var n := c.containerName;
    var w1 := CreateUserW(c, false, w, o).0;
    CreateIfConfined(n, UserDefined(c), false, RoleExists(c.dbUser), CreateRole(c.dbUser, c.dbPassword), w, o);
    var w2 := CreateDatabaseW(c, false, w1, o).0;
    CreateIfConfined(n, DatabaseDefined(c), false, PgSql.DatabaseExists(c.dbName), PgSql.CreateDatabase(c.dbName, c.dbUser), w1, o);
    ConfinedTrans(w, w1, w2, n);
    ExtensionsConfined(w2, n, c.dbName, ExtensionPieces(c));
    ConfinedTrans(w, w2, ExtensionsW(w2, n, c.dbName, ExtensionPieces(c)), n);
  }

  lemma StartWithDropCreateConfined(c: ContainerConfig, w: World, o: PgOracle, ready: Poll, connect: Poll)
    ensures ExecsConfined(w, StartWithDropCreateW(c, w, o, ready, connect).0, c.containerName)
  {
    ReadyConfined(c, w, ready);
    var (w1, isReady) := ReadyW(c, w, ready);
    if isReady {
      var (w2, failure) := DropBothW(c, w1, o);
      DropBothConfined(c, w1, o);
      ConfinedTrans(w, w1, w2, c.containerName);
      if failure.None? {
        CreateAllConfined(c, w2, o);
        ConfinedTrans(w, w2, StartWithDropCreateW(c, w, o, ready, connect).0, c.containerName);
      }
    }
  }

  /** In every start mode, every pg_isready probe and psql statement runs inside the configured
      container (the one its `docker run` names). */
  lemma StartConfined(c: ContainerConfig, w: World, o: PgOracle, ready: Poll, connect: Poll)
    ensures ExecsConfined(w, StartW(c, w, o, ready, connect).0, c.containerName)
  {
    match DbContainer.ModeOf(c.startMode)
    case Create => StartWithCreateConfined(c, w, o, ready, connect);
    case DropCreate => StartWithDropCreateConfined(c, w, o, ready, connect);
    case ContainerOnly => ReadyConfined(c, w, ready);
  }

  /* ---- the operations ---- */

  /** The guarded create, step by step. */
  method CreateIf(h: Host, target: string, o: PgOracle, defined: bool, checkExists: bool, query: PgSql, create: PgSql)
    returns (r: Outcome<bool>)
    modifies h
    ensures (h.Model(), r) == CreateIfW(target, defined, checkExists, query, create, old(h.Model()), o)
  {
    if !defined {
      return Ok(false);
    }
    if checkExists {
      var present := Exists(h, target, o, query);
      if present.Raised? {
        return present;
      }
      if present.value {
        return Ok(false);
      }
    }
    var ok := Exec(h, target, o, create, 2);
    return Ok(ok);
  }

  /** The guarded drop, step by step. */
  method DropIfExists(h: Host, target: string, o: PgOracle, defined: bool, query: PgSql, drop: PgSql)
    returns (r: Outcome<bool>)
    modifies h
    ensures (h.Model(), r) == DropIfExistsW(target, defined, query, drop, old(h.Model()), o)
  {
    if !defined {
      return Ok(false);
    }
    var present := Exists(h, target, o, query);
    if present.Raised? {
      return present;
    }
    if !present.value {
      return Ok(false);
    }
    var ok := Exec(h, target, o, drop, 1);
    return Ok(ok);
  }

  /** PostgresContainer.createUser(checkExists). */
  method CreateUser(h: Host, c: ContainerConfig, o: PgOracle, checkExists: bool) returns (r: Outcome<bool>)
    modifies h
    ensures (h.Model(), r) == CreateUserW(c, checkExists, old(h.Model()), o)
  {
    r := CreateIf(h, c.containerName, o, UserDefined(c), checkExists, RoleExists(c.dbUser), CreateRole(c.dbUser, c.dbPassword));
  }

  /** PostgresContainer.createDatabase(checkExists). */
  method CreateDatabase(h: Host, c: ContainerConfig, o: PgOracle, checkExists: bool) returns (r: Outcome<bool>)
    modifies h
    ensures (h.Model(), r) == CreateDatabaseW(c, checkExists, old(h.Model()), o)
  {
    r := CreateIf(h, c.containerName, o, DatabaseDefined(c), checkExists, PgSql.DatabaseExists(c.dbName), PgSql.CreateDatabase(c.dbName, c.dbUser));
  }

  /** PostgresContainer.dropDatabaseIfExists. */
  method DropDatabaseIfExists(h: Host, c: ContainerConfig, o: PgOracle) returns (r: Outcome<bool>)
    modifies h
    ensures (h.Model(), r) == DropDatabaseIfExistsW(c, old(h.Model()), o)
  {
    r := DropIfExists(h, c.containerName, o, DatabaseDefined(c), PgSql.DatabaseExists(c.dbName), PgSql.DropDatabase(c.dbName));
  }

  /** PostgresContainer.dropUserIfExists. */
  method DropUserIfExists(h: Host, c: ContainerConfig, o: PgOracle) returns (r: Outcome<bool>)
    modifies h
    ensures (h.Model(), r) == DropUserIfExistsW(c, old(h.Model()), o)
  {
    r := DropIfExists(h, c.containerName, o, UserDefined(c), RoleExists(c.dbUser), DropRole(c.dbUser));
  }

  /** PostgresContainer.databaseExists. */
  method DatabaseExists(h: Host, c: ContainerConfig, o: PgOracle) returns (r: Outcome<bool>)
    modifies h
    ensures (h.Model(), r) == ExistsW(old(h.Model()), c.containerName, o, PgSql.DatabaseExists(c.dbName))
  {
    r := Exists(h, c.containerName, o, PgSql.DatabaseExists(c.dbName));
  }

  /** PostgresContainer.userExists. */
  method UserExists(h: Host, c: ContainerConfig, o: PgOracle) returns (r: Outcome<bool>)
    modifies h
    ensures (h.Model(), r) == ExistsW(old(h.Model()), c.containerName, o, RoleExists(c.dbUser))
  {
    r := Exists(h, c.containerName, o, RoleExists(c.dbUser));
  }

  /** PostgresContainer.createDatabaseExtensions. */
  method CreateDatabaseExtensions(h: Host, c: ContainerConfig)
    modifies h
    ensures h.Model() == ExtensionsW(old(h.Model()), c.containerName, c.dbName, ExtensionPieces(c))
  {
    if c.dbExtensions.Some? && c.dbExtensions.value != "" {
      var pieces := JavaSplit(c.dbExtensions.value);
      CreateExtensions(h, c.containerName, c.dbName, pieces);
    } else {
      assert ExtensionCommands(c.containerName, c.dbName, []) == [];
      assert old(h.Model()).trace + [] == old(h.Model()).trace;
    }
  }

  /** PostgresContainer.waitForDatabaseReady: pg_isready against the internal port. */
  method WaitForDatabaseReady(h: Host, c: ContainerConfig, ready: Poll) returns (ok: bool)
    modifies h
    ensures h.Model() == ProbesW(old(h.Model()), c.containerName, c.internalPort, WaitOutcome(c.maxReadyAttempts, ready).1)
    ensures ok == WaitOutcome(c.maxReadyAttempts, ready).0
  {
    ok := Postgres.WaitForDatabaseReady(h, c.containerName, c.internalPort, c.maxReadyAttempts, ready);
  }

  /** PostgresContainer.startWithCreate. */
  method StartWithCreate(h: Host, c: ContainerConfig, o: PgOracle, ready: Poll, connect: Poll) returns (r: Outcome<bool>)
    modifies h
    ensures (h.Model(), r) == StartWithCreateW(c, old(h.Model()), o, ready, connect)
  {
    StartIfNeeded(h, c.containerName, RunArgs(c));
    var isReady := WaitForDatabaseReady(h, c, ready);
    if !isReady {
      return Ok(false);
    }
    var user := CreateUser(h, c, o, true);
    if user.Raised? {
      return user;
    }
    var db := CreateDatabase(h, c, o, true);
    if db.Raised? {
      return db;
    }
    CreateDatabaseExtensions(h, c);
    var connected, attempts := WaitForConnectivity(connect);
    return Ok(connected);
  }

  /** The drop half of startWithDropCreate. */
  method DropBoth(h: Host, c: ContainerConfig, o: PgOracle) returns (failure: Option<Failure>)
    modifies h
    ensures (h.Model(), failure) == DropBothW(c, old(h.Model()), o)
  {
    var db := DropDatabaseIfExists(h, c, o);
    if db.Raised? {
      return Some(db.failure);
    }
    var user := DropUserIfExists(h, c, o);
    if user.Raised? {
      return Some(user.failure);
    }
    return None;
  }

  /** PostgresContainer.startWithDropCreate. */
  method StartWithDropCreate(h: Host, c: ContainerConfig, o: PgOracle, ready: Poll, connect: Poll) returns (r: Outcome<bool>)
    modifies h
    ensures (h.Model(), r) == StartWithDropCreateW(c, old(h.Model()), o, ready, connect)
  {
    StartIfNeeded(h, c.containerName, RunArgs(c));
    var isReady := WaitForDatabaseReady(h, c, ready);
    if !isReady {
      return Ok(false);
    }
    var failure := DropBoth(h, c, o);
    if failure.Some? {
      return Raised(failure.value);
    }
    var user := CreateUser(h, c, o, false);
    var db := CreateDatabase(h, c, o, false);
    CreateDatabaseExtensions(h, c);
    var connected, attempts := WaitForConnectivity(connect);
    return Ok(connected);
  }

  /** PostgresContainer.startContainerOnly. */
  method StartContainerOnly(h: Host, c: ContainerConfig, ready: Poll, connect: Poll) returns (r: Outcome<bool>)
    modifies h
    ensures (h.Model(), r) == StartContainerOnlyW(c, old(h.Model()), ready, connect)
  {
    StartIfNeeded(h, c.containerName, RunArgs(c));
    var isReady := WaitForDatabaseReady(h, c, ready);
    if !isReady {
      return Ok(false);
    }
    var connected, attempts := WaitForConnectivity(connect);
    return Ok(connected);
  }

  /** PostgresContainer.start: dispatch on the lower-cased, trimmed start mode. */
  method Start(h: Host, c: ContainerConfig, o: PgOracle, ready: Poll, connect: Poll) returns (r: Outcome<bool>)
    modifies h
    ensures (h.Model(), r) == StartW(c, old(h.Model()), o, ready, connect)
  {
    match Trim(Lower(c.startMode))
    case "create" => r := StartWithCreate(h, c, o, ready, connect);
    case "dropcreate" => r := StartWithDropCreate(h, c, o, ready, connect);
    case "container" => r := StartContainerOnly(h, c, ready, connect);
    case _ => r := StartWithCreate(h, c, o, ready, connect);
  }
}
