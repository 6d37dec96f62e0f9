# docker-commands: the decisions behind a database test container

This project models, in Dafny, how avaje docker-commands brings a database container up for
tests, provisions it and takes it down again. It covers six classes:

- the older Postgres controller `org.avaje.docker.commands.postgres.PostgresCommands`;
- `org.avaje.docker.commands.PostgresContainer` and its base class `BaseContainer`;
- `io.ebean.docker.commands.DbContainer` (start modes, readiness loops, output predicates);
- `io.ebean.docker.commands.SqlServerContainer` (database, login and user provisioning over JDBC);
- `org.avaje.docker.commands.DbConfigFactory` (platform defaults and command-set dispatch).

The container runtime, psql and the JDBC connections are collaborators the code does not own.

**The runtime.** `Runtime.World` holds each container's state (`Absent`, `Stopped` or
`Running`). It also keeps a trace of every command issued, in order:

- `docker run` and `docker start`;
- stop, and stop-and-remove;
- each `pg_isready` probe, with the container it runs in;
- each psql statement, with the container it runs in.

`Runtime.ExecsConfined` says that every probe and psql process a flow adds runs inside one
named container, and `Postgres.ExecArgs` gives the `docker exec` argument list behind each.

`Runtime.Host` is the mutable object the methods act on. Every method is proved equal to a
specification function over `World`, and the properties are proved about those functions.

**Oracles.** Inputs from the outside world are given as oracles:

- what psql prints for each statement: `Postgres.PgOracle`;
- whether each readiness or connectivity attempt succeeds, and whether the sleep after it is
  interrupted: `Polling.Poll`;
- whether each JDBC connection opens: `SqlServerContainer.Connections`.

**Provisioning.** `Runtime.Provisioning(trace)` keeps only the psql statements that change the
database. Most flow lemmas say exactly which such statements a flow adds, and in which order.

**Java strings.** The string operations are written with Java's semantics in `JavaText`:
`toLowerCase`, `trim`, `equalsIgnoreCase`, `contains` and `split(",")`. `split` drops trailing
empty pieces but keeps blank ones and does not trim.

## Model

| member | source | states |
|---|---|---|
| Polling.WaitOutcomeMeaning | src/main/java/org/avaje/docker/commands/BaseContainer.java:69-82 | The bounded wait makes at most maxAttempts attempts, and none when the budget is not positive. It returns true exactly when its last attempt succeeded. It stops early with false only when the sleep after a failed attempt was interrupted. Every earlier attempt failed without interruption. |
| Polling.SucceedsIffEarlySuccess | src/main/java/org/avaje/docker/commands/BaseContainer.java:69-82 | The wait returns true iff some attempt within the budget succeeds with no earlier attempt succeeding or being interrupted. |
| Polling.ExhaustedBudget | src/main/java/org/avaje/docker/commands/BaseContainer.java:70-81 | A probe that never succeeds and is never interrupted is made exactly maxAttempts times, and the wait returns false. |
| Polling.Wait | src/main/java/org/avaje/docker/commands/BaseContainer.java:69-82 | The for-loop with early returns computes the wait's outcome and attempt count. |
| BaseContainer.StartIfNeededMeaning | src/main/java/org/avaje/docker/commands/BaseContainer.java:47-58 | A running container gets no command, a registered stopped one is resumed, and an unknown one gets a fresh `docker run`. Afterwards it is running and every other container is unchanged. |
| BaseContainer.StartCommandsNoPsql | src/main/java/org/avaje/docker/commands/BaseContainer.java:47-62 | Bringing the container up issues no psql statement. |
| BaseContainer.StartIfNeededConfined | src/main/java/org/avaje/docker/commands/BaseContainer.java:47-58 | startIfNeeded starts no process inside any container. |
| BaseContainer.StartIfNeeded | src/main/java/org/avaje/docker/commands/BaseContainer.java:47-58 | The isRunning / isRegistered checks issue exactly the commands the specification chooses. |
| BaseContainer.WaitForConnectivity | src/main/java/org/avaje/docker/commands/BaseContainer.java:69-82 | It makes at most 120 attempts and returns true iff the last attempt connected. |
| BaseContainer.Start | src/main/java/org/avaje/docker/commands/BaseContainer.java:35-42 | It brings the container up, then returns the connectivity wait's result. |
| BaseContainer.StopModeOf | src/main/java/org/avaje/docker/commands/BaseContainer.java:90-102 | The container is removed iff the lower-cased, trimmed setting is "remove"; "stop" and anything else only stops it. |
| BaseContainer.StopModeIgnoresCaseAndPadding | src/main/java/org/avaje/docker/commands/BaseContainer.java:91 | The stop mode ignores case and blanks around the setting. |
| BaseContainer.PaddedRemoveRemoves | src/main/java/org/avaje/docker/commands/BaseContainer.java:91-97 | "remove" with blanks on either side removes. |
| BaseContainer.StopMeaning | src/main/java/org/avaje/docker/commands/BaseContainer.java:90-117 | After stop the container is not running. In remove mode it is gone and exactly one stop-remove command was issued. Otherwise it stays registered iff it was, and exactly one stop-if-running command was issued. Other containers are unchanged. |
| BaseContainer.Stop | src/main/java/org/avaje/docker/commands/BaseContainer.java:90-102 | The switch issues the command the stop mode selects. |
| BaseContainer.StopRemoveCall | src/main/java/org/avaje/docker/commands/BaseContainer.java:107-109 | It stops and removes the configured container. |
| BaseContainer.StopOnlyCall | src/main/java/org/avaje/docker/commands/BaseContainer.java:115-117 | It stops the configured container if it is running. |
| Postgres.HasZeroRows | src/main/java/org/avaje/docker/commands/PostgresContainer.java:360-365 | Output too short to hold a status line raises "Unexpected results" with that output. Otherwise the result is whether the third line is "(0 rows)". |
| Postgres.HasZeroRowsAsWritten | src/main/java/org/avaje/docker/commands/postgres/PostgresCommands.java:385-390 | As written: fewer than two lines raise "Unexpected results", exactly two lines fail on get(2), and otherwise the result is whether the third line is "(0 rows)". |
| Postgres.HasZeroRowsGuardMissesTwoLines | src/main/java/org/avaje/docker/commands/PostgresContainer.java:360-365 | A two-line output passes the written guard and raises an index-out-of-bounds instead of "Unexpected results". |
| Postgres.HasZeroRowsAgree | src/main/java/org/avaje/docker/commands/postgres/PostgresCommands.java:385-390 | The written and corrected checks raise on the same outputs. They agree whenever they return, and on every output that is not two lines long. |
| Postgres.ExistsAnswer | src/main/java/org/avaje/docker/commands/postgres/PostgresCommands.java:129-138 | databaseExists / userExists raise exactly when the output is unreadable. Otherwise they are true iff the third line is not "(0 rows)". |
| Postgres.PsqlArgsShape | src/main/java/org/avaje/docker/commands/postgres/PostgresCommands.java:315-328 | Every psql process runs as the postgres superuser in the named container and ends with `-c` and the statement's text. `-d <db>` appears exactly for extension statements. |
| Postgres.ExecArgsShape | src/main/java/org/avaje/docker/commands/postgres/PostgresCommands.java:353-377 | The process behind every recorded probe or psql statement is `docker exec -i` in the container the command records. A probe is `pg_isready -h localhost -p <port>` with the recorded port; a psql statement runs `psql -U postgres` and ends with the statement's text. |
| Postgres.ExtensionProvisioning | src/main/java/org/avaje/docker/commands/postgres/PostgresCommands.java:163-173 | The extension loop changes the database with one statement per piece, in the order of the pieces. |
| Postgres.ProbesNoPsql | src/main/java/org/avaje/docker/commands/postgres/PostgresCommands.java:239-253 | Readiness probes never run a psql statement. |
| Postgres.Exists | src/main/java/org/avaje/docker/commands/postgres/PostgresCommands.java:129-138 | It runs the query once and reads its output through hasZeroRows. |
| Postgres.Exec | src/main/java/org/avaje/docker/commands/postgres/PostgresCommands.java:143-158 | It runs the statement once. It succeeds iff psql printed the expected number of lines. |
| Postgres.WaitForDatabaseReady | src/main/java/org/avaje/docker/commands/postgres/PostgresCommands.java:239-253 | It issues one pg_isready probe per attempt, as many as the bounded wait makes, and returns the wait's result. |
| Postgres.CreateExtensions | src/main/java/org/avaje/docker/commands/postgres/PostgresCommands.java:168-171 | It issues one extension statement per piece, in order. |
| PostgresCommands.RunArgsShape | src/main/java/org/avaje/docker/commands/postgres/PostgresCommands.java:330-351 | `--tmpfs <dir>` follows the port mapping exactly when tmpfs is set. The arguments always start with the name and port mapping and end with the password entry, `-d` and the image. |
| PostgresCommands.ExtensionPieces | src/main/java/org/avaje/docker/commands/postgres/PostgresCommands.java:165-169 | A null list gives no extension. Otherwise every piece of split(",") is an extension. |
| PostgresCommands.EmptyExtensionListIssuesOneStatement | src/main/java/org/avaje/docker/commands/postgres/PostgresCommands.java:165-171 | Only null is checked, so an empty list issues one statement, for the empty extension name. |
| PostgresCommands.ReadyMeaning | src/main/java/org/avaje/docker/commands/postgres/PostgresCommands.java:52-53 | Bringing the container up and waiting for it leaves it running and the database untouched. |
| PostgresCommands.StartNotReady | src/main/java/org/avaje/docker/commands/postgres/PostgresCommands.java:51-57 | When the database never becomes ready, start returns false after the container commands and probes, and issues no psql statement. |
| PostgresCommands.StartWithDropCreateNotReady | src/main/java/org/avaje/docker/commands/postgres/PostgresCommands.java:73-79 | The same short circuit for startWithDropCreate. |
| PostgresCommands.StartProvisions | src/main/java/org/avaje/docker/commands/postgres/PostgresCommands.java:51-71 | Once ready, with readable answers, start creates the user only if missing, then the database only if missing, then every extension. It returns the IP connectivity wait's result. |
| PostgresCommands.DropExistingMeaning | src/main/java/org/avaje/docker/commands/postgres/PostgresCommands.java:79-84 | The database is dropped if present, before the user, if present. Nothing else changes the database or the containers. |
| PostgresCommands.StartWithDropCreateProvisions | src/main/java/org/avaje/docker/commands/postgres/PostgresCommands.java:73-94 | Once ready, with readable answers, it drops the database (if present) and then the user (if present). It then creates the user, the database and every extension, unconditionally and in that order. |
| PostgresCommands.StartRaisesOnUserQuery | src/main/java/org/avaje/docker/commands/postgres/PostgresCommands.java:57-59 | An unreadable answer to the user query makes start raise "Unexpected results" before it changes the database. |
| PostgresCommands.StartWithDropCreateRaisesOnDatabaseQuery | src/main/java/org/avaje/docker/commands/postgres/PostgresCommands.java:79-80 | An unreadable answer to the database query makes startWithDropCreate raise before any drop or create. |
| PostgresCommands.StartRaisesOnDatabaseQuery | src/main/java/org/avaje/docker/commands/postgres/PostgresCommands.java:57-62 | An unreadable answer to the database query makes start raise "Unexpected results" after the create-role it has already issued for a missing user. That create is the only change left in the database. |
| PostgresCommands.StartWithDropCreateRaisesOnUserQuery | src/main/java/org/avaje/docker/commands/postgres/PostgresCommands.java:79-83 | An unreadable answer to the user query makes startWithDropCreate raise after the drop it has already issued for a present database. That drop is the only change left, and nothing is created. |
| PostgresCommands.StartConfined | src/main/java/org/avaje/docker/commands/postgres/PostgresCommands.java:51-71 | Every pg_isready probe and psql statement start issues runs inside the configured container, the one its `docker run` names. |
| PostgresCommands.StartWithDropCreateConfined | src/main/java/org/avaje/docker/commands/postgres/PostgresCommands.java:73-94 | The same for startWithDropCreate. |
| PostgresCommands.Start | src/main/java/org/avaje/docker/commands/postgres/PostgresCommands.java:51-71 | The method issues exactly what the start specification does. |
| PostgresCommands.StartWithDropCreate | src/main/java/org/avaje/docker/commands/postgres/PostgresCommands.java:73-94 | The method issues exactly what the drop-create specification does. |
| PostgresCommands.DropExisting | src/main/java/org/avaje/docker/commands/postgres/PostgresCommands.java:79-84 | The drop half, step by step. |
| PostgresCommands.StartIfNeeded | src/main/java/org/avaje/docker/commands/postgres/PostgresCommands.java:99-110 | The same choice as BaseContainer.startIfNeeded, with this controller's run arguments. |
| PostgresCommands.Stop | src/main/java/org/avaje/docker/commands/postgres/PostgresCommands.java:122-124 | It stops the container if it is running. |
| PostgresCommands.StopRemove | src/main/java/org/avaje/docker/commands/postgres/PostgresCommands.java:115-117 | It stops and removes the container. |
| PostgresCommands.DatabaseExists | src/main/java/org/avaje/docker/commands/postgres/PostgresCommands.java:129-131 | It runs the pg_database query for the configured database. |
| PostgresCommands.UserExists | src/main/java/org/avaje/docker/commands/postgres/PostgresCommands.java:136-138 | It runs the pg_roles query for the configured user. |
| PostgresCommands.CreateUser | src/main/java/org/avaje/docker/commands/postgres/PostgresCommands.java:143-148 | It creates the login role with its password. True iff psql printed two lines. |
| PostgresCommands.CreateDatabase | src/main/java/org/avaje/docker/commands/postgres/PostgresCommands.java:153-158 | It creates the database owned by the configured user. True iff two lines were printed. |
| PostgresCommands.DropDatabase | src/main/java/org/avaje/docker/commands/postgres/PostgresCommands.java:196-201 | It drops the database if it exists. True iff one line was printed. |
| PostgresCommands.DropUser | src/main/java/org/avaje/docker/commands/postgres/PostgresCommands.java:206-211 | It drops the role if it exists. True iff one line was printed. |
| PostgresCommands.CreateDatabaseExtensions | src/main/java/org/avaje/docker/commands/postgres/PostgresCommands.java:163-191 | It issues one extension statement per split piece, in the configured database. |
| PostgresCommands.WaitForDatabaseReady | src/main/java/org/avaje/docker/commands/postgres/PostgresCommands.java:221-253 | It probes the Postgres port with pg_isready, at most maxLogReadyAttempts times. |
| PostgresCommands.WaitForIpConnectivity | src/main/java/org/avaje/docker/commands/postgres/PostgresCommands.java:258-271 | It makes at most 20 attempts and returns true iff the last one connected. |
| PostgresContainer.ExtensionPieces | src/main/java/org/avaje/docker/commands/PostgresContainer.java:174-188 | There is no extension unless the list is non-null and non-empty. Otherwise every piece of split(",") is an extension. |
| PostgresContainer.ExtensionListGuard | src/main/java/org/avaje/docker/commands/PostgresContainer.java:174-188 | An empty list issues nothing, while a blank list is defined and issued as it is. |
| PostgresContainer.RunArgsShape | src/main/java/org/avaje/docker/commands/PostgresContainer.java:317-339 | The run is detached, with the name and port mapping first. `--tmpfs <dir>` follows exactly when the database is in memory and a tmpfs directory is set. The arguments end with the admin password entry, `-d` and the image. |
| PostgresContainer.CreateIfMeaning | src/main/java/org/avaje/docker/commands/PostgresContainer.java:146-169 | The create is issued exactly when the name is defined and either no check is asked or the check says it is missing. Its result is whether psql printed two lines. An unreadable check raises; an undefined name changes nothing. |
| PostgresContainer.DropIfExistsMeaning | src/main/java/org/avaje/docker/commands/PostgresContainer.java:211-233 | The drop is issued exactly when the name is defined and the check says it exists. Its result is whether psql printed one line. An unreadable check raises; an undefined name changes nothing. |
| PostgresContainer.ReadyMeaning | src/main/java/org/avaje/docker/commands/PostgresContainer.java:257-271 | Bringing the container up and waiting for it issues no psql statement and leaves it running. |
| PostgresContainer.StartNotReady | src/main/java/org/avaje/docker/commands/PostgresContainer.java:48-127 | In every start mode, a database that never becomes ready makes start return false with no psql statement issued. |
| PostgresContainer.StartContainerOnlyNoPsql | src/main/java/org/avaje/docker/commands/PostgresContainer.java:115-127 | Container-only mode never runs psql, leaves the container running, and returns true iff both waits succeed. |
| PostgresContainer.StartWithCreateProvisions | src/main/java/org/avaje/docker/commands/PostgresContainer.java:72-87 | Once ready, it creates the user if defined and missing, then the database if defined and missing, then every extension. It returns the connectivity result whatever the creates printed. |
| PostgresContainer.DropBothMeaning | src/main/java/org/avaje/docker/commands/PostgresContainer.java:99-100 | The database (defined and present) is dropped before the user (defined and present), and nothing else changes. |
| PostgresContainer.StartWithDropCreateProvisions | src/main/java/org/avaje/docker/commands/PostgresContainer.java:92-110 | Once ready, it drops the database before the user. It then creates the user and the database whenever defined, with no check, then every extension. |
| PostgresContainer.StartWithCreateRaisesOnUserQuery | src/main/java/org/avaje/docker/commands/PostgresContainer.java:146-149 | With a defined user, an unreadable answer to the user query makes startWithCreate raise "Unexpected results" before it changes the database. |
| PostgresContainer.StartWithCreateRaisesOnDatabaseQuery | src/main/java/org/avaje/docker/commands/PostgresContainer.java:161-164 | With a defined database, an unreadable answer to the database query makes startWithCreate raise after the create-role it has already issued for a defined, missing user. That create is the only change left. |
| PostgresContainer.StartWithDropCreateRaisesOnDatabaseQuery | src/main/java/org/avaje/docker/commands/PostgresContainer.java:211-214 | With a defined database, an unreadable answer to the database query makes startWithDropCreate raise before any drop or create. |
| PostgresContainer.StartWithDropCreateRaisesOnUserQuery | src/main/java/org/avaje/docker/commands/PostgresContainer.java:225-228 | With a defined user, an unreadable answer to the user query makes startWithDropCreate raise after the drop it has already issued for a defined, present database. That drop is the only change left, and nothing is created. |
| PostgresContainer.StartConfined | src/main/java/org/avaje/docker/commands/PostgresContainer.java:48-61 | In every start mode, every pg_isready probe and psql statement runs inside the configured container, the one its `docker run` names. |
| PostgresContainer.CreateIf | src/main/java/org/avaje/docker/commands/PostgresContainer.java:146-169 | The guarded create, step by step. |
| PostgresContainer.DropIfExists | src/main/java/org/avaje/docker/commands/PostgresContainer.java:211-233 | The guarded drop, step by step. |
| PostgresContainer.CreateUser | src/main/java/org/avaje/docker/commands/PostgresContainer.java:146-154 | createUser(checkExists) issues what the guarded create specifies for the role. |
| PostgresContainer.CreateDatabase | src/main/java/org/avaje/docker/commands/PostgresContainer.java:161-169 | createDatabase(checkExists) issues what the guarded create specifies for the database. |
| PostgresContainer.DropDatabaseIfExists | src/main/java/org/avaje/docker/commands/PostgresContainer.java:211-219 | The guarded drop of the database. |
| PostgresContainer.DropUserIfExists | src/main/java/org/avaje/docker/commands/PostgresContainer.java:224-233 | The guarded drop of the role. |
| PostgresContainer.DatabaseExists | src/main/java/org/avaje/docker/commands/PostgresContainer.java:132-134 | It runs the pg_database query. |
| PostgresContainer.UserExists | src/main/java/org/avaje/docker/commands/PostgresContainer.java:139-141 | It runs the pg_roles query. |
| PostgresContainer.CreateDatabaseExtensions | src/main/java/org/avaje/docker/commands/PostgresContainer.java:174-206 | It issues one extension statement per piece of a defined list. |
| PostgresContainer.WaitForDatabaseReady | src/main/java/org/avaje/docker/commands/PostgresContainer.java:257-271 | It probes the internal port with pg_isready, at most maxReadyAttempts times. |
| PostgresContainer.StartWithCreate | src/main/java/org/avaje/docker/commands/PostgresContainer.java:72-87 | The method issues exactly what its specification does. |
| PostgresContainer.DropBoth | src/main/java/org/avaje/docker/commands/PostgresContainer.java:99-100 | The drop half, step by step. |
| PostgresContainer.StartWithDropCreate | src/main/java/org/avaje/docker/commands/PostgresContainer.java:92-110 | The method issues exactly what its specification does. |
| PostgresContainer.StartContainerOnly | src/main/java/org/avaje/docker/commands/PostgresContainer.java:115-127 | The method issues exactly what its specification does. |
| PostgresContainer.Start | src/main/java/org/avaje/docker/commands/PostgresContainer.java:48-61 | start dispatches on the lower-cased, trimmed start mode, and an unknown mode means create. |
| DbContainer.ModeOf | src/main/java/io/ebean/docker/commands/DbContainer.java:55-67 | "dropcreate" selects drop-create and "container" selects container-only, each after lower-casing and trimming. Anything else, "create" included, selects create. |
| DbContainer.ModeOfIgnoresCaseAndPadding | src/main/java/io/ebean/docker/commands/DbContainer.java:56 | The mode ignores case and blanks around the setting. |
| DbContainer.DefinedIffVisibleCharacter | src/main/java/io/ebean/docker/commands/DbContainer.java:172-174 | A value is defined iff it is non-null and has a character trim keeps. |
| DbContainer.StdoutContains | src/main/java/io/ebean/docker/commands/DbContainer.java:212-219 | True iff some output line contains the expected text. |
| DbContainer.ExecuteVariants | src/main/java/io/ebean/docker/commands/DbContainer.java:179-231 | execute holds iff some line contains the text. executeWithout holds iff no line does, which is exactly its negation. Empty output fails execute and passes executeWithout. |
| DbContainer.ExecuteEmptyExpectation | src/main/java/io/ebean/docker/commands/DbContainer.java:186-194 | An empty expected line succeeds iff there is any output at all. |
| DbContainer.ConditionLoopMeaning | src/main/java/io/ebean/docker/commands/DbContainer.java:126-138 | The loop succeeds iff the condition holds at some attempt within the budget, and then it stops at the first such attempt. A CommandException counts as a failed attempt. On failure it has evaluated the condition exactly max(maxAttempts, 0) times. |
| DbContainer.ConditionLoop | src/main/java/io/ebean/docker/commands/DbContainer.java:126-146 | The loop computes that outcome. An interrupted pause does not stop it. |
| DbContainer.WaitForDatabaseReady | src/main/java/io/ebean/docker/commands/DbContainer.java:121-124 | Ready iff both condition loops succeed. The admin condition is not evaluated at all when the first loop fails. |
| DbContainer.DbContainer.StartWithCreate | src/main/java/io/ebean/docker/commands/DbContainer.java:72-75 | It records the create mode and returns the connectivity start's result. |
| DbContainer.DbContainer.StartWithDropCreate | src/main/java/io/ebean/docker/commands/DbContainer.java:80-83 | It records the drop-create mode and returns the connectivity start's result. |
| DbContainer.DbContainer.StartContainerOnly | src/main/java/io/ebean/docker/commands/DbContainer.java:88-101 | It records container-only mode and brings the container up. It returns true iff both readiness loops and the connectivity wait succeed. |
| DbContainer.DbContainer.StartForMode | src/main/java/io/ebean/docker/commands/DbContainer.java:55-67 | It records the mode the setting selects and runs that mode's flow. |
| SqlServerContainer.RoleAndDatabaseRunsPlan | src/main/java/io/ebean/docker/commands/SqlServerContainer.java:33-78 | Without an admin connection, nothing runs and "Error when creating database and role" is raised. Otherwise exactly the planned statements run. A database connection failure is raised after the database and login steps. |
| SqlServerContainer.PlanOrder | src/main/java/io/ebean/docker/commands/SqlServerContainer.java:33-66 | Statements come in the order drop, database, login, user, grant, each at most once. There is no drop unless withDrop. A user create is always followed at once by its db_owner grant, which ends the run. |
| SqlServerContainer.RoleAndDatabaseKeepsValid | src/main/java/io/ebean/docker/commands/SqlServerContainer.java:33-82 | Users and db_owner members exist only inside existing databases, before and after. |
| SqlServerContainer.RoleAndDatabaseReachesGoal | src/main/java/io/ebean/docker/commands/SqlServerContainer.java:33-72 | After a call that raised nothing, the database, the login and the database user all exist. |
| SqlServerContainer.CreateIsIdempotent | src/main/java/io/ebean/docker/commands/SqlServerContainer.java:23-26 | Creating again after a successful create or drop-create runs no statement and changes nothing. |
| SqlServerContainer.RunArgsShape | src/main/java/io/ebean/docker/commands/SqlServerContainer.java:119-139 | The licence is always accepted and the admin password passed, and the image is last. The default collation adds nothing and takes precedence over an explicit one. Otherwise the collation entry is the configured one or Latin1_General_100_BIN2. |
| SqlServerContainer.CreateRoleAndDatabase | src/main/java/io/ebean/docker/commands/SqlServerContainer.java:33-45 | The method runs what the specification does and raises the same failure. |
| SqlServerContainer.CreateDatabaseOnly | src/main/java/io/ebean/docker/commands/SqlServerContainer.java:23-26 | createDatabase is createRoleAndDatabase without the drop. |
| SqlServerContainer.DropCreateDatabase | src/main/java/io/ebean/docker/commands/SqlServerContainer.java:28-31 | dropCreateDatabase is createRoleAndDatabase with the drop. |
| SqlServerContainer.DropDatabaseIfExists | src/main/java/io/ebean/docker/commands/SqlServerContainer.java:74-78 | It drops the database only if it exists. |
| SqlServerContainer.CreateDatabaseStep | src/main/java/io/ebean/docker/commands/SqlServerContainer.java:68-72 | It creates the database only if it is missing. |
| SqlServerContainer.CreateLoginStep | src/main/java/io/ebean/docker/commands/SqlServerContainer.java:55-59 | It creates the login, with its password, only if it is missing. |
| SqlServerContainer.CreateUserStep | src/main/java/io/ebean/docker/commands/SqlServerContainer.java:61-66 | If the user is missing, it creates the user with role and login both the user name, then grants db_owner. |
| DbConfigFactory.DefaultsFor | src/main/java/org/avaje/docker/commands/DbConfigFactory.java:36-60 | No defaults iff the platform equals "mysql" or "oracle" ignoring case. Postgres and every other platform get the postgres defaults. |
| DbConfigFactory.DefaultsIgnoreCase | src/main/java/org/avaje/docker/commands/DbConfigFactory.java:36-50 | Platform names that differ only in case get the same defaults. |
| DbConfigFactory.CreateWithDefaultsMeaning | src/main/java/org/avaje/docker/commands/DbConfigFactory.java:21-71 | Null properties or no dbPlatform leave the config as created. Otherwise the properties are applied once and last, after at most the postgres defaults (image postgres:9.6.4, name ut_postgres, ports 6432 and 5432, tmpfs /var/lib/postgresql/data:rw), which apply exactly when the platform is not mysql or oracle. |
| DbConfigFactory.CreateCommands | src/main/java/org/avaje/docker/commands/DbConfigFactory.java:76-84 | The trimmed, lower-cased platform selects postgres iff it is "postgres" and mysql iff it is "mysql". Anything else raises IllegalArgumentException naming the normalised platform. |
| DbConfigFactory.CreateCommandsIgnoresCaseAndPadding | src/main/java/org/avaje/docker/commands/DbConfigFactory.java:78 | Case and surrounding blanks change neither the selection nor the error message. |
| DbConfigFactory.PaddedMySqlGetsPostgresDefaults | src/main/java/org/avaje/docker/commands/DbConfigFactory.java:37-48 | "mysql" with a leading blank (and any blanks after it) selects the mysql commands but gets the postgres defaults, because applyDefaults does not trim. |
| DbConfigFactory.ApplyPostgresDefaults | src/main/java/org/avaje/docker/commands/DbConfigFactory.java:62-71 | It overwrites the five fields with the postgres defaults. |
| DbConfigFactory.ApplyDefaults | src/main/java/org/avaje/docker/commands/DbConfigFactory.java:36-50 | It applies the defaults the platform selects. |
| DbConfigFactory.CreateWithDefaults | src/main/java/org/avaje/docker/commands/DbConfigFactory.java:12-34 | It builds a fresh config in the state the specification gives. |
| JavaText.JavaSplitPieces | src/main/java/org/avaje/docker/commands/PostgresContainer.java:179 | split(",") gives, in order, the comma-free pieces of the string. Only empty pieces at the end are lost. |
| JavaText.SplitKeepsBlankPieces | src/main/java/org/avaje/docker/commands/postgres/PostgresCommands.java:168 | " hstore, , pgcrypto " splits into " hstore", " " and " pgcrypto ", with nothing trimmed. |
| JavaText.SplitOfComma | src/main/java/org/avaje/docker/commands/PostgresContainer.java:179 | A list that is only a comma splits into no pieces. |
| JavaText.NormalizeIgnoresCaseAndPadding | src/main/java/io/ebean/docker/commands/DbContainer.java:56 | toLowerCase().trim() ignores case and blanks added on either side. |
| JavaText.Contains | src/main/java/io/ebean/docker/commands/DbContainer.java:214 | String.contains holds iff some window of the string equals the text. |

## Left out

- Process execution, psql and `pg_isready` output, and JDBC connections are oracles. The model has no I/O, no real clock and no sleeping; the 100 ms and 200 ms pauses are not modelled.
- Logging is left out, and so are `DbContainer.start`'s `logStarted` and the `log*` helpers.
- `Thread.interrupt()` after an interrupted pause is left out. Only its effect on the loop is modelled: it stops `BaseContainer.waitForConnectivity`, `PostgresCommands.waitForIpConnectivity` and `waitForDatabaseReady`, and is swallowed by `DbContainer.pause`.
- `JavaText.Lower`: case mapping covers ASCII letters only; other Unicode case mappings are not modelled.
- The org.avaje `DbContainer` superclass of `PostgresContainer` (its `userDefined`, `databaseDefined` and `checkConnectivity`) is not part of this model. `PostgresContainer.UserDefined` and `PostgresContainer.DatabaseDefined` take a name to be defined when it is not blank after trimming, which is the test io.ebean `DbContainer.defined` makes.
- The io.ebean `BaseContainer`, `JdbcBaseDbContainer` and `DbConfig` classes are not part of this model. The io.ebean `DbContainer` flows reuse the org.avaje `startIfNeeded` and `waitForConnectivity`.
- `DbContainer.DbContainer.StartWithCreate`: `startWithConnectivity` and the provisioning it performs are not part of this model. Its outcome is an input, and the host is not changed.
- `DbContainer.DbContainer.StartWithDropCreate`: the same, for the drop-create flow.
- `SqlServerContainer.CreateRoleAndDatabase`: `sqlRun` and `sqlHasRow` come from `JdbcBaseDbContainer`, which is not part of this model. Every statement is taken to succeed, and every existence check reflects the catalog. A failing statement is not modelled.
- `SqlServerContainer.CreateRoleAndDatabase`: the database connection's failure is raised with the SQLException's message. The wrapping RuntimeException and the closing of connections are not modelled.
- `Properties`, `withProperties` and `DbConfig`'s field initialisers are not part of this model. A config starts from given settings; applying properties is recorded in order, but which fields it sets is not modelled.
- `DbConfigFactory.CreateCommands` returns which command set would be built. Constructing `PostgresCommands` or `MySqlCommands` is not modelled, nor is the null-platform NullPointerException.
- Java null for container names, users and database names is not modelled; only the fields the source tests for null are `Option`s.
- The flow functions and the methods that call `databaseExists` / `userExists` use the corrected `Postgres.HasZeroRows`. A two-line psql output therefore raises "Unexpected results" in the model, where the code as written raises `IndexOutOfBoundsException` (see Findings).
- Statement text is given by `Postgres.SqlText` and `SqlServerContainer.StatementText`, but no lemma is stated about the rendered SQL beyond the argument shapes.
- MySQL, Oracle and the other platforms' container classes are not part of this model.

## Findings

| source | as written | input that shows it | evidently intended | confidence | as-written member | corrected member |
|---|---|---|---|---|---|---|
| src/main/java/org/avaje/docker/commands/postgres/PostgresCommands.java:385-390 and src/main/java/org/avaje/docker/commands/PostgresContainer.java:360-365 | `hasZeroRows` rejects outputs with fewer than 2 lines, then reads line index 2 | a psql output of exactly two lines (a header and a separator) passes the guard and fails on `get(2)` with IndexOutOfBoundsException | reject fewer than 3 lines with "Unexpected results" | not executed | Postgres.HasZeroRowsAsWritten, Postgres.HasZeroRowsGuardMissesTwoLines | Postgres.HasZeroRows |
