/** org.avaje.docker.commands.postgres.PostgresCommands, the older Postgres controller: start
    (create the user and the database when missing), startWithDropCreate (drop both when
    present, then create them), the extension loop and the two bounded waits. */
module PostgresCommands {
  import opened JavaText
  import opened Polling
  import opened Runtime
  import opened BaseContainer
  import opened Postgres

  /** The PostgresConfig fields the controller reads. tmpfs and dbExtensions may be null. */
  datatype PostgresConfig = PostgresConfig(
    docker: string,
    name: string,
    hostPort: string,
    pgPort: string,
    pgPassword: string,
    image: string,
    tmpfs: Option<string>,
    dbName: string,
    dbUser: string,
    dbPassword: string,
    dbExtensions: Option<string>,
    maxLogReadyAttempts: int)

  /** How many JDBC connection attempts waitForIpConnectivity makes at most. */
  const IpConnectivityAttempts := 20

  /** The `docker run` arguments: name, port mapping, an optional tmpfs mount, the password
      environment entry and the image. */
  function RunArgs(c: PostgresConfig): seq<string> {
    [c.docker, "run", "--name", c.name, "-p", c.hostPort + ":" + c.pgPort]
    + (match c.tmpfs case Some(t) => ["--tmpfs", t] case None => [])
    + ["-e", c.pgPassword, "-d", c.image]
  }

  /** `--tmpfs <dir>` appears, right after the port mapping, exactly when tmpfs is set; the port
      mapping is host port and Postgres port joined by a colon; the image comes last. */
  lemma RunArgsShape(c: PostgresConfig)
    ensures var args := RunArgs(c);
      |args| == (if c.tmpfs.Some? then 12 else 10)
      && args[..6] == [c.docker, "run", "--name", c.name, "-p", c.hostPort + ":" + c.pgPort]
      && (c.tmpfs.Some? ==> args[6] == "--tmpfs" && args[7] == c.tmpfs.value)
      && args[|args| - 4..] == ["-e", c.pgPassword, "-d", c.image]
  {
  }

  /** The extension names: none when the list is null, otherwise every piece of split(","). */
  function ExtensionPieces(c: PostgresConfig): (pieces: seq<string>)
    ensures c.dbExtensions.None? ==> pieces == []
    ensures c.dbExtensions.Some? ==> pieces == JavaSplit(c.dbExtensions.value)
  {
    match c.dbExtensions
    case None => []
    case Some(e) => JavaSplit(e)
  }

  /** Only null is checked: an empty extension list still issues one statement, for the empty
      extension name. */
  lemma EmptyExtensionListIssuesOneStatement(c: PostgresConfig)
    requires c.dbExtensions == Some("")
    ensures ExtensionStatements(c.dbName, ExtensionPieces(c)) == [CreateExtension(c.dbName, "")]
  {
    SplitOfEmpty();
  }

  /* ---- the two flows, as functions of the world ---- */

  /** startIfNeeded followed by waitForDatabaseReady: the world afterwards and whether the
      database became ready. */
  function ReadyW(c: PostgresConfig, w: World, ready: Poll): (World, bool) {
    var (ok, n) := WaitOutcome(c.maxLogReadyAttempts, ready);
    (ProbesW(StartIfNeededW(w, c.name, RunArgs(c)), c.name, c.pgPort, n), ok)
  }

  /** The commands startIfNeeded and waitForDatabaseReady issue. */
  function ReadyCommands(c: PostgresConfig, w: World, ready: Poll): seq<Command> {
    StartCommands(StateOf(w, c.name), c.name, RunArgs(c))
    + Repeat(PgIsReady(c.name, c.pgPort), WaitOutcome(c.maxLogReadyAttempts, ready).1)
  }

  /** Bringing the container up and waiting for it leaves it running and the database untouched. */
  lemma ReadyMeaning(c: PostgresConfig, w: World, ready: Poll)
    ensures var (w', ok) := ReadyW(c, w, ready);
      ok == WaitOutcome(c.maxLogReadyAttempts, ready).0
      && w'.trace == w.trace + ReadyCommands(c, w, ready)
      && StateOf(w', c.name) == Running
      && Provisioning(w'.trace) == Provisioning(w.trace)
  {
    var n := WaitOutcome(c.maxLogReadyAttempts, ready).1;
    var s := StartCommands(StateOf(w, c.name), c.name, RunArgs(c));
    var p := Repeat(PgIsReady(c.name, c.pgPort), n);
    StartIfNeededMeaning(w, c.name, RunArgs(c));
    StartCommandsNoPsql(StateOf(w, c.name), c.name, RunArgs(c));
    ProbesNoPsql(c.name, c.pgPort, n);
    ProvisioningAppend(w.trace + s, p);
    ProvisioningAppend(w.trace, s);
    assert w.trace + s + p == w.trace + (s + p);
  }

  /** PostgresCommands.start. */
  function StartW(c: PostgresConfig, w: World, o: PgOracle, ready: Poll, connect: Poll): (World, Outcome<bool>) {
    var (w1, isReady) := ReadyW(c, w, ready);
    if !isReady then (w1, Ok(false))
    else
      var (w2, user) := ExistsW(w1, c.name, o, RoleExists(c.dbUser));
      if user.Raised? then (w2, Raised(user.failure))
      else
        var w3 := if user.value then w2 else ExecW(w2, c.name, o, CreateRole(c.dbUser, c.dbPassword), 2).0;
        var (w4, db) := ExistsW(w3, c.name, o, PgSql.DatabaseExists(c.dbName));
        if db.Raised? then (w4, Raised(db.failure))
        else
          var w5 := if db.value then w4 else ExecW(w4, c.name, o, PgSql.CreateDatabase(c.dbName, c.dbUser), 2).0;
          (ExtensionsW(w5, c.name, c.dbName, ExtensionPieces(c)), Ok(WaitOutcome(IpConnectivityAttempts, connect).0))
  }

  /** The drop half of startWithDropCreate: the database if it exists, then the user if it
      exists; the failure raised by an unreadable existence answer, if any. */
  function DropExistingW(c: PostgresConfig, w: World, o: PgOracle): (World, Option<Failure>) {
    var (w1, db) := ExistsW(w, c.name, o, PgSql.DatabaseExists(c.dbName));
    if db.Raised? then (w1, Some(db.failure))
    else
      var w2 := if db.value then ExecW(w1, c.name, o, PgSql.DropDatabase(c.dbName), 1).0 else w1;
      var (w3, user) := ExistsW(w2, c.name, o, RoleExists(c.dbUser));
      if user.Raised? then (w3, Some(user.failure))
      else (if user.value then ExecW(w3, c.name, o, DropRole(c.dbUser), 1).0 else w3, None)
  }

  /** PostgresCommands.startWithDropCreate. */
  function StartWithDropCreateW(c: PostgresConfig, w: World, o: PgOracle, ready: Poll, connect: Poll): (World, Outcome<bool>) {
    var (w1, isReady) := ReadyW(c, w, ready);
    if !isReady then (w1, Ok(false))
    else
      var (w2, failure) := DropExistingW(c, w1, o);
      if failure.Some? then (w2, Raised(failure.value))
      else
        var w3 := ExecW(w2, c.name, o, CreateRole(c.dbUser, c.dbPassword), 2).0;
        var w4 := ExecW(w3, c.name, o, PgSql.CreateDatabase(c.dbName, c.dbUser), 2).0;
        (ExtensionsW(w4, c.name, c.dbName, ExtensionPieces(c)), Ok(WaitOutcome(IpConnectivityAttempts, connect).0))
  }

  /** The database is dropped, if present, before the user, if present; nothing else changes the
      database. */
  lemma DropExistingMeaning(c: PostgresConfig, w: World, o: PgOracle, userExists: bool, dbExists: bool)
    requires ExistsAnswer(Reply(o, RoleExists(c.dbUser))) == Ok(userExists)
    requires ExistsAnswer(Reply(o, PgSql.DatabaseExists(c.dbName))) == Ok(dbExists)
    ensures var (w', failure) := DropExistingW(c, w, o);
      failure.None? && w'.containers == w.containers
      && Provisioning(w'.trace) == Provisioning(w.trace)
           + (if dbExists then [PgSql.DropDatabase(c.dbName)] else [])
           + (if userExists then [DropRole(c.dbUser)] else [])
  {
    var dropDb := if dbExists then [PgSql.DropDatabase(c.dbName)] else [];
    var w1 := Issue(w, Psql(c.name, PgSql.DatabaseExists(c.dbName)));
    ProvisioningIssue(w.trace, Psql(c.name, PgSql.DatabaseExists(c.dbName)));
    var w2 := if dbExists then Issue(w1, Psql(c.name, PgSql.DropDatabase(c.dbName))) else w1;
    ProvisioningIssue(w1.trace, Psql(c.name, PgSql.DropDatabase(c.dbName)));
    assert Provisioning(w2.trace) == Provisioning(w.trace) + dropDb;
    var w3 := Issue(w2, Psql(c.name, RoleExists(c.dbUser)));
    ProvisioningIssue(w2.trace, Psql(c.name, RoleExists(c.dbUser)));
    ProvisioningIssue(w3.trace, Psql(c.name, DropRole(c.dbUser)));
  }

  /* ---- what the flows guarantee ---- */

  /** When the database never becomes ready, start returns false after bringing the container up
      and probing, and issues no psql statement at all. */
  lemma StartNotReady(c: PostgresConfig, w: World, o: PgOracle, ready: Poll, connect: Poll)
    requires !WaitOutcome(c.maxLogReadyAttempts, ready).0
    ensures var (w', r) := StartW(c, w, o, ready, connect);
      r == Ok(false) && w'.trace == w.trace + ReadyCommands(c, w, ready)
      && !AnyPsql(ReadyCommands(c, w, ready))
  {
    ReadyMeaning(c, w, ready);
    StartCommandsNoPsql(StateOf(w, c.name), c.name, RunArgs(c));
    ProbesNoPsql(c.name, c.pgPort, WaitOutcome(c.maxLogReadyAttempts, ready).1);
    NoPsqlConcat(StartCommands(StateOf(w, c.name), c.name, RunArgs(c)),
                 Repeat(PgIsReady(c.name, c.pgPort), WaitOutcome(c.maxLogReadyAttempts, ready).1));
  }

  /** The same short circuit for startWithDropCreate. */
  lemma StartWithDropCreateNotReady(c: PostgresConfig, w: World, o: PgOracle, ready: Poll, connect: Poll)
    requires !WaitOutcome(c.maxLogReadyAttempts, ready).0
    ensures var (w', r) := StartWithDropCreateW(c, w, o, ready, connect);
      r == Ok(false) && w'.trace == w.trace + ReadyCommands(c, w, ready)
      && !AnyPsql(ReadyCommands(c, w, ready))
  {
    StartNotReady(c, w, o, ready, connect);
  }

  /** Once the database is ready and both existence queries answer, start creates the user only
      when it is missing and the database only when it is missing, user first, then every
      extension; its result is the connectivity wait's, and the container is running. */
  lemma StartProvisions(c: PostgresConfig, w: World, o: PgOracle, ready: Poll, connect: Poll,
                        userExists: bool, dbExists: bool)
    requires WaitOutcome(c.maxLogReadyAttempts, ready).0
    requires ExistsAnswer(Reply(o, RoleExists(c.dbUser))) == Ok(userExists)
    requires ExistsAnswer(Reply(o, PgSql.DatabaseExists(c.dbName))) == Ok(dbExists)
    ensures var (w', r) := StartW(c, w, o, ready, connect);
      r == Ok(WaitOutcome(IpConnectivityAttempts, connect).0)
      && StateOf(w', c.name) == Running
      && Provisioning(w'.trace) == Provisioning(w.trace)
           + (if userExists then [] else [CreateRole(c.dbUser, c.dbPassword)])
           + (if dbExists then [] else [PgSql.CreateDatabase(c.dbName, c.dbUser)])
           + ExtensionStatements(c.dbName, ExtensionPieces(c))
  {
    ReadyMeaning(c, w, ready);
    var pieces := ExtensionPieces(c);
    var createRole := if userExists then [] else [CreateRole(c.dbUser, c.dbPassword)];
    var createDb := if dbExists then [] else [PgSql.CreateDatabase(c.dbName, c.dbUser)];
    var w1 := ReadyW(c, w, ready).0;
    var w2 := Issue(w1, Psql(c.name, RoleExists(c.dbUser)));
    ProvisioningIssue(w1.trace, Psql(c.name, RoleExists(c.dbUser)));
    assert Provisioning(w2.trace) == Provisioning(w.trace);
    var w3 := if userExists then w2 else Issue(w2, Psql(c.name, CreateRole(c.dbUser, c.dbPassword)));
    ProvisioningIssue(w2.trace, Psql(c.name, CreateRole(c.dbUser, c.dbPassword)));
    assert Provisioning(w3.trace) == Provisioning(w.trace) + createRole;
    var w4 := Issue(w3, Psql(c.name, PgSql.DatabaseExists(c.dbName)));
    ProvisioningIssue(w3.trace, Psql(c.name, PgSql.DatabaseExists(c.dbName)));
    var w5 := if dbExists then w4 else Issue(w4, Psql(c.name, PgSql.CreateDatabase(c.dbName, c.dbUser)));
    ProvisioningIssue(w4.trace, Psql(c.name, PgSql.CreateDatabase(c.dbName, c.dbUser)));
    assert Provisioning(w5.trace) == Provisioning(w.trace) + createRole + createDb;
    ProvisioningAppend(w5.trace, ExtensionCommands(c.name, c.dbName, pieces));
    ExtensionProvisioning(c.name, c.dbName, pieces);
    assert StartW(c, w, o, ready, connect) == (ExtensionsW(w5, c.name, c.dbName, pieces), Ok(WaitOutcome(IpConnectivityAttempts, connect).0));
  }

  /** Once the database is ready and both existence queries answer, startWithDropCreate drops
      the database if present, then the user if present (never the other way round), then
      creates the user, the database and every extension, unconditionally and in that order. */
  lemma StartWithDropCreateProvisions(c: PostgresConfig, w: World, o: PgOracle, ready: Poll, connect: Poll,
                                      userExists: bool, dbExists: bool)
    requires WaitOutcome(c.maxLogReadyAttempts, ready).0
    requires ExistsAnswer(Reply(o, RoleExists(c.dbUser))) == Ok(userExists)
    requires ExistsAnswer(Reply(o, PgSql.DatabaseExists(c.dbName))) == Ok(dbExists)
    ensures var (w', r) := StartWithDropCreateW(c, w, o, ready, connect);
      r == Ok(WaitOutcome(IpConnectivityAttempts, connect).0)
      && StateOf(w', c.name) == Running
      && Provisioning(w'.trace) == Provisioning(w.trace)
           + (if dbExists then [PgSql.DropDatabase(c.dbName)] else [])
           + (if userExists then [DropRole(c.dbUser)] else [])
           + [CreateRole(c.dbUser, c.dbPassword), PgSql.CreateDatabase(c.dbName, c.dbUser)]
           + ExtensionStatements(c.dbName, ExtensionPieces(c))
  {
    ReadyMeaning(c, w, ready);
    var pieces := ExtensionPieces(c);
    var drops := (if dbExists then [PgSql.DropDatabase(c.dbName)] else [])
      + (if userExists then [DropRole(c.dbUser)] else []);
    var w1 := ReadyW(c, w, ready).0;
    DropExistingMeaning(c, w1, o, userExists, dbExists);
    var w2 := DropExistingW(c, w1, o).0;
    assert Provisioning(w2.trace) == Provisioning(w.trace) + drops;
    var w3 := Issue(w2, Psql(c.name, CreateRole(c.dbUser, c.dbPassword)));
    ProvisioningIssue(w2.trace, Psql(c.name, CreateRole(c.dbUser, c.dbPassword)));
    var w4 := Issue(w3, Psql(c.name, PgSql.CreateDatabase(c.dbName, c.dbUser)));
    ProvisioningIssue(w3.trace, Psql(c.name, PgSql.CreateDatabase(c.dbName, c.dbUser)));
    assert Provisioning(w4.trace) == Provisioning(w.trace) + drops
      + [CreateRole(c.dbUser, c.dbPassword), PgSql.CreateDatabase(c.dbName, c.dbUser)];
    ProvisioningAppend(w4.trace, ExtensionCommands(c.name, c.dbName, pieces));
    ExtensionProvisioning(c.name, c.dbName, pieces);
    assert StateOf(w4, c.name) == Running;
  }

  /** An unreadable answer to the user query makes start raise "Unexpected results" with that
      output, before it changes anything in the database. */
  lemma StartRaisesOnUserQuery(c: PostgresConfig, w: World, o: PgOracle, ready: Poll, connect: Poll)
    requires WaitOutcome(c.maxLogReadyAttempts, ready).0
    requires |Reply(o, RoleExists(c.dbUser))| < 3
    ensures var (w', r) := StartW(c, w, o, ready, connect);
      r == Raised(UnexpectedResults(Reply(o, RoleExists(c.dbUser))))
      && Provisioning(w'.trace) == Provisioning(w.trace)
  {
    ReadyMeaning(c, w, ready);
    ProvisioningIssue(ReadyW(c, w, ready).0.trace, Psql(c.name, RoleExists(c.dbUser)));
  }

  /** An unreadable answer to the database query makes startWithDropCreate raise before it drops
      or creates anything. */
  lemma StartWithDropCreateRaisesOnDatabaseQuery(c: PostgresConfig, w: World, o: PgOracle, ready: Poll, connect: Poll)
    requires WaitOutcome(c.maxLogReadyAttempts, ready).0
    requires |Reply(o, PgSql.DatabaseExists(c.dbName))| < 3
    ensures var (w', r) := StartWithDropCreateW(c, w, o, ready, connect);
      r == Raised(UnexpectedResults(Reply(o, PgSql.DatabaseExists(c.dbName))))
      && Provisioning(w'.trace) == Provisioning(w.trace)
  {
    ReadyMeaning(c, w, ready);
    ProvisioningIssue(ReadyW(c, w, ready).0.trace, Psql(c.name, PgSql.DatabaseExists(c.dbName)));
  }

  /** An unreadable answer to the database query makes start raise after it has already
      created the user when the user was missing: that create is left in place. */
  lemma StartRaisesOnDatabaseQuery(c: PostgresConfig, w: World, o: PgOracle, ready: Poll, connect: Poll,
                                   userExists: bool)
    requires WaitOutcome(c.maxLogReadyAttempts, ready).0
    requires ExistsAnswer(Reply(o, RoleExists(c.dbUser))) == Ok(userExists)
    requires |Reply(o, PgSql.DatabaseExists(c.dbName))| < 3
    ensures var (w', r) := StartW(c, w, o, ready, connect);
      r == Raised(UnexpectedResults(Reply(o, PgSql.DatabaseExists(c.dbName))))
      && Provisioning(w'.trace) == Provisioning(w.trace)
           + (if userExists then [] else [CreateRole(c.dbUser, c.dbPassword)])
  {
    ReadyMeaning(c, w, ready);
    var w1 := ReadyW(c, w, ready).0;
    var w2 := Issue(w1, Psql(c.name, RoleExists(c.dbUser)));
    ProvisioningIssue(w1.trace, Psql(c.name, RoleExists(c.dbUser)));
    var w3 := if userExists then w2 else Issue(w2, Psql(c.name, CreateRole(c.dbUser, c.dbPassword)));
    ProvisioningIssue(w2.trace, Psql(c.name, CreateRole(c.dbUser, c.dbPassword)));
    ProvisioningIssue(w3.trace, Psql(c.name, PgSql.DatabaseExists(c.dbName)));
  }

  /** An unreadable answer to the user query makes startWithDropCreate raise after it has
      already dropped the database when the database was present: that drop is left in place
      and nothing is created. */
  lemma StartWithDropCreateRaisesOnUserQuery(c: PostgresConfig, w: World, o: PgOracle, ready: Poll, connect: Poll,
                                             dbExists: bool)
    requires WaitOutcome(c.maxLogReadyAttempts, ready).0
    requires ExistsAnswer(Reply(o, PgSql.DatabaseExists(c.dbName))) == Ok(dbExists)
    requires |Reply(o, RoleExists(c.dbUser))| < 3
    ensures var (w', r) := StartWithDropCreateW(c, w, o, ready, connect);
      r == Raised(UnexpectedResults(Reply(o, RoleExists(c.dbUser))))
      && Provisioning(w'.trace) == Provisioning(w.trace)
           + (if dbExists then [PgSql.DropDatabase(c.dbName)] else [])
  {
    ReadyMeaning(c, w, ready);
    var w1 := ReadyW(c, w, ready).0;
    var q := Issue(w1, Psql(c.name, PgSql.DatabaseExists(c.dbName)));
    ProvisioningIssue(w1.trace, Psql(c.name, PgSql.DatabaseExists(c.dbName)));
    var w2 := if dbExists then Issue(q, Psql(c.name, PgSql.DropDatabase(c.dbName))) else q;
    ProvisioningIssue(q.trace, Psql(c.name, PgSql.DropDatabase(c.dbName)));
    ProvisioningIssue(w2.trace, Psql(c.name, RoleExists(c.dbUser)));
  }

  /* ---- which container the processes run in ---- */

  lemma ReadyConfined(c: PostgresConfig, w: World, ready: Poll)
    ensures ExecsConfined(w, ReadyW(c, w, ready).0, c.name)
  {
    var w0 := StartIfNeededW(w, c.name, RunArgs(c));
    StartIfNeededConfined(w, c.name, RunArgs(c), c.name);
    ProbesConfined(w0, c.name, c.pgPort, WaitOutcome(c.maxLogReadyAttempts, ready).1);
    ConfinedTrans(w, w0, ReadyW(c, w, ready).0, c.name);
  }

  /** Every pg_isready probe and psql statement start issues runs inside the configured
      container (the one its `docker run` names). */
  lemma StartConfined(c: PostgresConfig, w: World, o: PgOracle, ready: Poll, connect: Poll)
    ensures ExecsConfined(w, StartW(c, w, o, ready, connect).0, c.name)
  {
    ReadyConfined(c, w, ready);
    var (w1, isReady) := ReadyW(c, w, ready);
    if isReady {
      var (w2, user) := ExistsW(w1, c.name, o, RoleExists(c.dbUser));
      ExistsConfined(w1, c.name, o, RoleExists(c.dbUser));
      ConfinedTrans(w, w1, w2, c.name);
      if user.Ok? {
        var w3 := if user.value then w2 else ExecW(w2, c.name, o, CreateRole(c.dbUser, c.dbPassword), 2).0;
        ConfinedRefl(w2, c.name);
        ExecConfined(w2, c.name, o, CreateRole(c.dbUser, c.dbPassword), 2);
        ConfinedTrans(w, w2, w3, c.name);
        var (w4, db) := ExistsW(w3, c.name, o, PgSql.DatabaseExists(c.dbName));
        ExistsConfined(w3, c.name, o, PgSql.DatabaseExists(c.dbName));
        ConfinedTrans(w, w3, w4, c.name);
        if db.Ok? {
          var w5 := if db.value then w4 else ExecW(w4, c.name, o, PgSql.CreateDatabase(c.dbName, c.dbUser), 2).0;
          ConfinedRefl(w4, c.name);
          ExecConfined(w4, c.name, o, PgSql.CreateDatabase(c.dbName, c.dbUser), 2);
          ConfinedTrans(w, w4, w5, c.name);
          ExtensionsConfined(w5, c.name, c.dbName, ExtensionPieces(c));
          ConfinedTrans(w, w5, ExtensionsW(w5, c.name, c.dbName, ExtensionPieces(c)), c.name);
        }
      }
    }
  }

  lemma DropExistingConfined(c: PostgresConfig, w: World, o: PgOracle)
    ensures ExecsConfined(w, DropExistingW(c, w, o).0, c.name)
  {
    var (w1, db) := ExistsW(w, c.name, o, PgSql.DatabaseExists(c.dbName));
    ExistsConfined(w, c.name, o, PgSql.DatabaseExists(c.dbName));
    if db.Ok? {
      var w2 := if db.value then ExecW(w1, c.name, o, PgSql.DropDatabase(c.dbName), 1).0 else w1;
      ConfinedRefl(w1, c.name);
      ExecConfined(w1, c.name, o, PgSql.DropDatabase(c.dbName), 1);
      ConfinedTrans(w, w1, w2, c.name);
      var (w3, user) := ExistsW(w2, c.name, o, RoleExists(c.dbUser));
      ExistsConfined(w2, c.name, o, RoleExists(c.dbUser));
      ConfinedTrans(w, w2, w3, c.name);
      if user.Ok? {
        var w4 := if user.value then ExecW(w3, c.name, o, DropRole(c.dbUser), 1).0 else w3;
        ConfinedRefl(w3, c.name);
        ExecConfined(w3, c.name, o, DropRole(c.dbUser), 1);
        ConfinedTrans(w, w3, w4, c.name);
      }
    }
  }

  /** The same for startWithDropCreate. */
  lemma StartWithDropCreateConfined(c: PostgresConfig, w: World, o: PgOracle, ready: Poll, connect: Poll)
    ensures ExecsConfined(w, StartWithDropCreateW(c, w, o, ready, connect).0, c.name)
  {
    ReadyConfined(c, w, ready);
    var (w1, isReady) := ReadyW(c, w, ready);
    if isReady {
      var (w2, failure) := DropExistingW(c, w1, o);
      DropExistingConfined(c, w1, o);
      ConfinedTrans(w, w1, w2, c.name);
      if failure.None? {
        var w3 := ExecW(w2, c.name, o, CreateRole(c.dbUser, c.dbPassword), 2).0;
        ExecConfined(w2, c.name, o, CreateRole(c.dbUser, c.dbPassword), 2);
        ConfinedTrans(w, w2, w3, c.name);
        var w4 := ExecW(w3, c.name, o, PgSql.CreateDatabase(c.dbName, c.dbUser), 2).0;
        ExecConfined(w3, c.name, o, PgSql.CreateDatabase(c.dbName, c.dbUser), 2);
        ConfinedTrans(w, w3, w4, c.name);
        ExtensionsConfined(w4, c.name, c.dbName, ExtensionPieces(c));
        ConfinedTrans(w, w4, ExtensionsW(w4, c.name, c.dbName, ExtensionPieces(c)), c.name);
      }
    }
  }

  /* ---- the operations ---- */

  /** PostgresCommands.startIfNeeded (the same choice as BaseContainer.startIfNeeded). */
  method StartIfNeeded(h: Host, c: PostgresConfig)
    modifies h
    ensures h.Model() == StartIfNeededW(old(h.Model()), c.name, RunArgs(c))
  {
    BaseContainer.StartIfNeeded(h, c.name, RunArgs(c));
  }

  /** PostgresCommands.stop: stop the container if it is running. */
  method Stop(h: Host, c: PostgresConfig)
    modifies h
    ensures h.Model() == StopIfRunningW(old(h.Model()), c.name)
  {
    h.StopIfRunning(c.name);
  }

  /** PostgresCommands.stopRemove: stop and remove the container. */
  method StopRemove(h: Host, c: PostgresConfig)
    modifies h
    ensures h.Model() == StopRemoveW(old(h.Model()), c.name)
  {
    h.StopRemove(c.name);
  }

  /** PostgresCommands.databaseExists. */
  method DatabaseExists(h: Host, c: PostgresConfig, o: PgOracle) returns (r: Outcome<bool>)
    modifies h
    ensures (h.Model(), r) == ExistsW(old(h.Model()), c.name, o, PgSql.DatabaseExists(c.dbName))
  {
    r := Exists(h, c.name, o, PgSql.DatabaseExists(c.dbName));
  }

  /** PostgresCommands.userExists. */
  method UserExists(h: Host, c: PostgresConfig, o: PgOracle) returns (r: Outcome<bool>)
    modifies h
    ensures (h.Model(), r) == ExistsW(old(h.Model()), c.name, o, RoleExists(c.dbUser))
  {
    r := Exists(h, c.name, o, RoleExists(c.dbUser));
  }

  /** PostgresCommands.createUser: true iff psql printed exactly two lines. */
  method CreateUser(h: Host, c: PostgresConfig, o: PgOracle) returns (ok: bool)
    modifies h
    ensures h.Model() == Issue(old(h.Model()), Psql(c.name, CreateRole(c.dbUser, c.dbPassword)))
    ensures ok <==> |Reply(o, CreateRole(c.dbUser, c.dbPassword))| == 2
  {
    ok := Exec(h, c.name, o, CreateRole(c.dbUser, c.dbPassword), 2);
  }

  /** PostgresCommands.createDatabase: owned by the configured user; true iff two lines. */
  method CreateDatabase(h: Host, c: PostgresConfig, o: PgOracle) returns (ok: bool)
    modifies h
    ensures h.Model() == Issue(old(h.Model()), Psql(c.name, PgSql.CreateDatabase(c.dbName, c.dbUser)))
    ensures ok <==> |Reply(o, PgSql.CreateDatabase(c.dbName, c.dbUser))| == 2
  {
    ok := Exec(h, c.name, o, PgSql.CreateDatabase(c.dbName, c.dbUser), 2);
  }

  /** PostgresCommands.dropDatabase: true iff psql printed exactly one line. */
  method DropDatabase(h: Host, c: PostgresConfig, o: PgOracle) returns (ok: bool)
    modifies h
    ensures h.Model() == Issue(old(h.Model()), Psql(c.name, PgSql.DropDatabase(c.dbName)))
    ensures ok <==> |Reply(o, PgSql.DropDatabase(c.dbName))| == 1
  {
    ok := Exec(h, c.name, o, PgSql.DropDatabase(c.dbName), 1);
  }

  /** PostgresCommands.dropUser: true iff psql printed exactly one line. */
  method DropUser(h: Host, c: PostgresConfig, o: PgOracle) returns (ok: bool)
    modifies h
    ensures h.Model() == Issue(old(h.Model()), Psql(c.name, DropRole(c.dbUser)))
    ensures ok <==> |Reply(o, DropRole(c.dbUser))| == 1
  {
    ok := Exec(h, c.name, o, DropRole(c.dbUser), 1);
  }

  /** PostgresCommands.createDatabaseExtensions. */
  method CreateDatabaseExtensions(h: Host, c: PostgresConfig)
    modifies h
    ensures h.Model() == ExtensionsW(old(h.Model()), c.name, c.dbName, ExtensionPieces(c))
  {
    if c.dbExtensions.Some? {
      var pieces := JavaSplit(c.dbExtensions.value);
      CreateExtensions(h, c.name, c.dbName, pieces);
    } else {
      assert ExtensionCommands(c.name, c.dbName, []) == [];
      assert old(h.Model()).trace + [] == old(h.Model()).trace;
    }
  }

  /** PostgresCommands.waitForDatabaseReady: pg_isready against the Postgres port. */
  method WaitForDatabaseReady(h: Host, c: PostgresConfig, ready: Poll) returns (ok: bool)
    modifies h
    ensures h.Model() == ProbesW(old(h.Model()), c.name, c.pgPort, WaitOutcome(c.maxLogReadyAttempts, ready).1)
    ensures ok == WaitOutcome(c.maxLogReadyAttempts, ready).0
  {
    ok := Postgres.WaitForDatabaseReady(h, c.name, c.pgPort, c.maxLogReadyAttempts, ready);
  }

  /** PostgresCommands.waitForIpConnectivity: at most 20 JDBC connection attempts, false at
      once on interruption. */
  method WaitForIpConnectivity(connect: Poll) returns (ok: bool, attempts: nat)
    ensures (ok, attempts) == WaitOutcome(IpConnectivityAttempts, connect)
    ensures attempts <= IpConnectivityAttempts
    ensures ok <==> attempts > 0 && At(connect.success, attempts - 1)
  {
    WaitOutcomeMeaning(IpConnectivityAttempts, connect);
    ok, attempts := Wait(IpConnectivityAttempts, connect);
  }

  /** PostgresCommands.start. */
  method Start(h: Host, c: PostgresConfig, o: PgOracle, ready: Poll, connect: Poll) returns (r: Outcome<bool>)
    modifies h
    ensures (h.Model(), r) == StartW(c, old(h.Model()), o, ready, connect)
  {
    StartIfNeeded(h, c);
    var isReady := WaitForDatabaseReady(h, c, ready);
    if !isReady {
      return Ok(false);
    }
    var user := UserExists(h, c, o);
    if user.Raised? {
      return Raised(user.failure);
    }
    if !user.value {
      var created := CreateUser(h, c, o);
    }
    var db := DatabaseExists(h, c, o);
    if db.Raised? {
      return Raised(db.failure);
    }
    if !db.value {
      var created := CreateDatabase(h, c, o);
    }
    CreateDatabaseExtensions(h, c);
    var connected, attempts := WaitForIpConnectivity(connect);
    return Ok(connected);
  }

  /** The drop half of startWithDropCreate. */
  method DropExisting(h: Host, c: PostgresConfig, o: PgOracle) returns (failure: Option<Failure>)
    modifies h
    ensures (h.Model(), failure) == DropExistingW(c, old(h.Model()), o)
  {
    var db := DatabaseExists(h, c, o);
    if db.Raised? {
      return Some(db.failure);
    }
    if db.value {
      var dropped := DropDatabase(h, c, o);
    }
    var user := UserExists(h, c, o);
    if user.Raised? {
      return Some(user.failure);
    }
    if user.value {
      var dropped := DropUser(h, c, o);
    }
    return None;
  }

  /** PostgresCommands.startWithDropCreate. */
  method StartWithDropCreate(h: Host, c: PostgresConfig, o: PgOracle, ready: Poll, connect: Poll) returns (r: Outcome<bool>)
    modifies h
    ensures (h.Model(), r) == StartWithDropCreateW(c, old(h.Model()), o, ready, connect)
  {
    StartIfNeeded(h, c);
    var isReady := WaitForDatabaseReady(h, c, ready);
    if !isReady {
      return Ok(false);
    }
    var failure := DropExisting(h, c, o);
    if failure.Some? {
      return Raised(failure.value);
    }
    var userCreated := CreateUser(h, c, o);
    var dbCreated := CreateDatabase(h, c, o);
    CreateDatabaseExtensions(h, c);
    var connected, attempts := WaitForIpConnectivity(connect);
    return Ok(connected);
  }
}
