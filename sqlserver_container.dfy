/** io.ebean.docker.commands.SqlServerContainer: creating the database, the login and the
    database user (with the db_owner role), optionally dropping the database first, over two
    JDBC connections; and the `docker run` arguments with the collation choice.

    The server is seen through what the provisioning reads and writes: which databases, logins
    and database users exist. Statements are recorded in the order they are run. */
module SqlServerContainer {
  import opened Runtime

  /** A database user is scoped to its database: (database, user name). */
  datatype Catalog = Catalog(
    databases: set<string>,
    logins: set<string>,
    users: set<(string, string)>,
    owners: set<(string, string)>)

  /** Users and db_owner members only exist inside existing databases. */
  predicate ValidCatalog(cat: Catalog) {
    (forall p :: p in cat.users ==> p.0 in cat.databases)
    && (forall p :: p in cat.owners ==> p.0 in cat.databases)
  }

  /** The statements sqlRun executes. The database of a user statement is the one the database
      connection is opened on. */
  datatype Statement =
    | DropDatabase(db: string)
    | CreateDatabase(db: string)
    | CreateLogin(login: string, password: string)
    | CreateUser(db: string, role: string, login: string)
    | GrantOwner(db: string, role: string)

  function StatementText(st: Statement): string {
    match st
    case DropDatabase(db) => "drop database " + db
    case CreateDatabase(db) => "create database " + db
    case CreateLogin(login, password) => "create login " + login + " with password = '" + password + "'"
    case CreateUser(_, role, login) => "create user " + role + " for login " + login
    case GrantOwner(_, role) => "exec sp_addrolemember 'db_owner', " + role
  }

  /** The order createRoleAndDatabase runs its steps in. */
  function Rank(st: Statement): nat {
    match st
    case DropDatabase(_) => 0
    case CreateDatabase(_) => 1
    case CreateLogin(_, _) => 2
    case CreateUser(_, _, _) => 3
    case GrantOwner(_, _) => 4
  }

  /** Dropping a database drops the users and role memberships inside it. */
  function Apply(cat: Catalog, st: Statement): Catalog {
    match st
    case DropDatabase(db) =>
      Catalog(cat.databases - {db}, cat.logins,
              set p | p in cat.users && p.0 != db, set p | p in cat.owners && p.0 != db)
    case CreateDatabase(db) => cat.(databases := cat.databases + {db})
    case CreateLogin(login, _) => cat.(logins := cat.logins + {login})
    case CreateUser(db, role, _) => cat.(users := cat.users + {(db, role)})
    case GrantOwner(db, role) => cat.(owners := cat.owners + {(db, role)})
  }

  datatype Server = Server(catalog: Catalog, log: seq<Statement>)

  function RunS(s: Server, st: Statement): Server {
    Server(Apply(s.catalog, st), s.log + [st])
  }

  /** The configuration fields read here. */
  datatype SqlServerConfig = SqlServerConfig(
    dbName: string,
    username: string,
    password: string,
    adminPassword: string,
    collation: string,
    image: string,
    defaultCollation: bool,
    explicitCollation: bool)

  /** Whether each JDBC connection opens: None when it does, otherwise the SQLException's
      message. */
  datatype Connections = Connections(admin: Option<string>, database: Option<string>)

  const AdminFailureMessage := "Error when creating database and role"

  /* ---- createRoleAndDatabase, as a function of the server ---- */

  function DropDatabaseIfExistsS(c: SqlServerConfig, s: Server): Server {
    if c.dbName in s.catalog.databases then RunS(s, Statement.DropDatabase(c.dbName)) else s
  }

  function CreateDatabaseS(c: SqlServerConfig, s: Server): Server {
    if c.dbName !in s.catalog.databases then RunS(s, Statement.CreateDatabase(c.dbName)) else s
  }

  function CreateLoginS(c: SqlServerConfig, s: Server): Server {
    if c.username !in s.catalog.logins then RunS(s, CreateLogin(c.username, c.password)) else s
  }

  /** The user is created with role name and login both the configured user name, and made
      db_owner straight after. */
  function CreateUserS(c: SqlServerConfig, s: Server): Server {
    if (c.dbName, c.username) !in s.catalog.users then
      RunS(RunS(s, CreateUser(c.dbName, c.username, c.username)), GrantOwner(c.dbName, c.username))
    else s
  }

  /** createRoleAndDatabase(withDrop): the server afterwards and the exception raised, if any. */
  function RoleAndDatabaseS(c: SqlServerConfig, withDrop: bool, s: Server, conn: Connections): (Server, Option<Failure>) {
    if conn.admin.Some? then (s, Some(SqlError(AdminFailureMessage)))
    else
      var s1 := if withDrop then DropDatabaseIfExistsS(c, s) else s;
      var s2 := CreateLoginS(c, CreateDatabaseS(c, s1));
      if conn.database.Some? then (s2, Some(SqlError(conn.database.value)))
      else (CreateUserS(c, s2), None)
  }

  /** The statements a call added to the log. */
  function AddedS(s: Server, s': Server): seq<Statement>
    requires |s.log| <= |s'.log|
  {
    s'.log[|s.log|..]
  }

  /* ---- what createRoleAndDatabase guarantees ---- */

  /** Every statement keeps the catalog valid: a drop takes the database's users and role
      memberships with it, and users and grants go into the database the connection is on,
      which exists by then. */
  lemma ApplyKeepsValid(cat: Catalog, st: Statement)
    requires ValidCatalog(cat)
    requires st.CreateUser? || st.GrantOwner? ==> st.db in cat.databases
    ensures ValidCatalog(Apply(cat, st))
  {
  }

  /** A valid catalog stays valid across createRoleAndDatabase, whatever the connections do. */
  lemma RoleAndDatabaseKeepsValid(c: SqlServerConfig, withDrop: bool, s: Server, conn: Connections)
    requires ValidCatalog(s.catalog)
    ensures ValidCatalog(RoleAndDatabaseS(c, withDrop, s, conn).0.catalog)
  {
    if conn.admin.None? {
      var s1 := if withDrop then DropDatabaseIfExistsS(c, s) else s;
      if withDrop && c.dbName in s.catalog.databases {
        ApplyKeepsValid(s.catalog, Statement.DropDatabase(c.dbName));
      }
      var s2 := CreateDatabaseS(c, s1);
      var s3 := CreateLoginS(c, s2);
      assert c.dbName in s3.catalog.databases;
      if conn.database.None? && (c.dbName, c.username) !in s3.catalog.users {
        var s4 := RunS(s3, CreateUser(c.dbName, c.username, c.username));
        ApplyKeepsValid(s3.catalog, CreateUser(c.dbName, c.username, c.username));
        ApplyKeepsValid(s4.catalog, GrantOwner(c.dbName, c.username));
      }
    }
  }

  /** The statements createRoleAndDatabase runs, read off the catalog it starts from: the drop
      only with withDrop and an existing database; the database create when the database was
      dropped or missing; the login create when the login was missing; the user create, followed
      at once by the grant, when the database connection opens and the user is missing once the
      drop is done. */
  function PlannedStatements(c: SqlServerConfig, withDrop: bool, cat: Catalog, databaseConnects: bool): seq<Statement> {
    var dropped := withDrop && c.dbName in cat.databases;
    (if dropped then [Statement.DropDatabase(c.dbName)] else [])
    + (if dropped || c.dbName !in cat.databases then [Statement.CreateDatabase(c.dbName)] else [])
    + (if c.username !in cat.logins then [CreateLogin(c.username, c.password)] else [])
    + (if databaseConnects && (dropped || (c.dbName, c.username) !in cat.users)
         then [CreateUser(c.dbName, c.username, c.username), GrantOwner(c.dbName, c.username)]
         else [])
  }

  /** The step-by-step call runs exactly the planned statements, and nothing at all without an
      admin connection; it raises the admin failure, the database connection's failure, or
      nothing. */
  lemma RoleAndDatabaseRunsPlan(c: SqlServerConfig, withDrop: bool, s: Server, conn: Connections)
    ensures var (s', failure) := RoleAndDatabaseS(c, withDrop, s, conn);
      (conn.admin.Some? ==> s' == s && failure == Some(SqlError(AdminFailureMessage)))
      && (conn.admin.None? ==>
            s'.log == s.log + PlannedStatements(c, withDrop, s.catalog, conn.database.None?)
            && (conn.database.Some? ==> failure == Some(SqlError(conn.database.value)))
            && (conn.database.None? ==> failure.None?))
  {
    if conn.admin.None? {
      var s1 := if withDrop then DropDatabaseIfExistsS(c, s) else s;
      var s2 := CreateDatabaseS(c, s1);
      var s3 := CreateLoginS(c, s2);
      assert c.dbName !in s1.catalog.databases <==> (withDrop && c.dbName in s.catalog.databases) || c.dbName !in s.catalog.databases;
      assert (c.dbName, c.username) !in s3.catalog.users <==> (withDrop && c.dbName in s.catalog.databases) || (c.dbName, c.username) !in s.catalog.users;
    }
  }

  /** In the plan each statement has a strictly higher rank than the one before, so each kind
      appears at most once, in the order drop, database, login, user, grant; there is no drop
      without withDrop; and a user create is always the second-to-last statement, followed by
      its grant. */
  lemma PlanOrder(c: SqlServerConfig, withDrop: bool, cat: Catalog, databaseConnects: bool)
    ensures var plan := PlannedStatements(c, withDrop, cat, databaseConnects);
      (forall i, j :: 0 <= i < j < |plan| ==> Rank(plan[i]) < Rank(plan[j]))
      && (!withDrop ==> forall k :: 0 <= k < |plan| ==> !plan[k].DropDatabase?)
      && (forall k :: 0 <= k < |plan| && plan[k].CreateUser? ==>
            k == |plan| - 2 && plan[k + 1] == GrantOwner(c.dbName, c.username))
  {
    var plan := PlannedStatements(c, withDrop, cat, databaseConnects);
    var d := c.dbName;
    var u := c.username;
    var dropped := withDrop && d in cat.databases;
    var a1 := if dropped then [Statement.DropDatabase(d)] else [];
    var a2 := if dropped || d !in cat.databases then [Statement.CreateDatabase(d)] else [];
    var a3 := if u !in cat.logins then [CreateLogin(u, c.password)] else [];
    var a4 := if databaseConnects && (dropped || (d, u) !in cat.users)
      then [CreateUser(d, u, u), GrantOwner(d, u)] else [];
    assert plan == a1 + a2 + a3 + a4;
    forall k | 0 <= k < |plan| ensures Rank(plan[k]) == RankOfBlock(a1, a2, a3, k) {
      BlockOf(a1, a2, a3, a4, k);
    }
  }

  /** Which of the four blocks position k of their concatenation falls in. */
  function RankOfBlock(a1: seq<Statement>, a2: seq<Statement>, a3: seq<Statement>, k: int): nat {
    if k < |a1| then 0
    else if k < |a1| + |a2| then 1
    else if k < |a1| + |a2| + |a3| then 2
    else 3 + (k - |a1| - |a2| - |a3|)
  }

  /** Position k of four concatenated blocks: the first three hold at most one statement each,
      of ranks 0, 1 and 2; the last is empty or a user create and its grant. */
  lemma BlockOf(a1: seq<Statement>, a2: seq<Statement>, a3: seq<Statement>, a4: seq<Statement>, k: int)
    requires forall i :: 0 <= i < |a1| ==> Rank(a1[i]) == 0
    requires forall i :: 0 <= i < |a2| ==> Rank(a2[i]) == 1
    requires forall i :: 0 <= i < |a3| ==> Rank(a3[i]) == 2
    requires a4 == [] || (|a4| == 2 && Rank(a4[0]) == 3 && Rank(a4[1]) == 4)
    requires 0 <= k < |a1 + a2 + a3 + a4|
    ensures Rank((a1 + a2 + a3 + a4)[k]) == RankOfBlock(a1, a2, a3, k)
  {
    var all := a1 + a2 + a3 + a4;
    if k < |a1| {
      assert all[k] == a1[k];
    } else if k < |a1| + |a2| {
      assert all[k] == a2[k - |a1|];
    } else if k < |a1| + |a2| + |a3| {
      assert all[k] == a3[k - |a1| - |a2|];
    } else {
      assert all[k] == a4[k - |a1| - |a2| - |a3|];
    }
  }

  /** After a call that raised nothing, the database, the login and the database user all exist. */
  lemma RoleAndDatabaseReachesGoal(c: SqlServerConfig, withDrop: bool, s: Server, conn: Connections)
    ensures var (s', failure) := RoleAndDatabaseS(c, withDrop, s, conn);
      failure.None? ==>
        c.dbName in s'.catalog.databases && c.username in s'.catalog.logins
        && (c.dbName, c.username) in s'.catalog.users
  {
  }

  /** Creating again, once a create has succeeded, runs no statement and changes nothing. */
  lemma CreateIsIdempotent(c: SqlServerConfig, withDrop: bool, s: Server)
    ensures var (s', failure) := RoleAndDatabaseS(c, withDrop, s, Connections(None, None));
      RoleAndDatabaseS(c, false, s', Connections(None, None)) == (s', None)
  {
  }

  /* ---- the run arguments ---- */

  const CaseSensitiveCollation := "Latin1_General_100_BIN2"

  /** The collation environment entry: none for the server default; the configured collation
      when one is given explicitly; otherwise the case-sensitive binary collation. */
  function CollationArgs(c: SqlServerConfig): seq<string> {
    if c.defaultCollation then []
    else if c.explicitCollation then ["-e", "MSSQL_COLLATION=" + c.collation]
    else ["-e", "MSSQL_COLLATION=" + CaseSensitiveCollation]
  }

  /** runProcess: the common `docker run` arguments, the licence and password entries, the
      collation entry and the image. */
  function RunArgs(dockerRun: seq<string>, c: SqlServerConfig): seq<string> {
    dockerRun + ["-e", "ACCEPT_EULA=Y", "-e", "SA_PASSWORD=" + c.adminPassword] + CollationArgs(c) + [c.image]
  }

  /** The licence is always accepted and the admin password always passed, right after the
      common arguments; the image is always last; the default collation adds nothing and takes
      precedence over an explicit one. */
  lemma RunArgsShape(dockerRun: seq<string>, c: SqlServerConfig)
    ensures var args := RunArgs(dockerRun, c);
      var b := |dockerRun|;
      |args| == b + (if c.defaultCollation then 5 else 7)
      && args[..b] == dockerRun
      && args[b..b + 4] == ["-e", "ACCEPT_EULA=Y", "-e", "SA_PASSWORD=" + c.adminPassword]
      && args[|args| - 1] == c.image
      && (!c.defaultCollation ==>
            args[b + 4] == "-e"
            && args[b + 5] == "MSSQL_COLLATION=" + (if c.explicitCollation then c.collation else CaseSensitiveCollation))
  {
    var args := RunArgs(dockerRun, c);
    var b := |dockerRun|;
    assert args[..b] == dockerRun;
  }

  /* ---- the server and the operations ---- */

  class SqlServer {
    var catalog: Catalog
    var log: seq<Statement>

    function Model(): Server
      reads this
    {
      Server(catalog, log)
    }

    constructor (s: Server)
      ensures Model() == s
    {
      catalog := s.catalog;
      log := s.log;
    }

    /** sqlRun: the statement takes effect and is recorded. */
    method Run(st: Statement)
      modifies this
      ensures Model() == RunS(old(Model()), st)
    {
      catalog := Apply(catalog, st);
      log := log + [st];
    }
  }

  /** dropDatabaseIfExists(connection). */
  method DropDatabaseIfExists(srv: SqlServer, c: SqlServerConfig)
    modifies srv
    ensures srv.Model() == DropDatabaseIfExistsS(c, old(srv.Model()))
  {
    if c.dbName in srv.catalog.databases {
      srv.Run(Statement.DropDatabase(c.dbName));
    }
  }

  /** createDatabase(connection). */
  method CreateDatabaseStep(srv: SqlServer, c: SqlServerConfig)
    modifies srv
    ensures srv.Model() == CreateDatabaseS(c, old(srv.Model()))
  {
    if c.dbName !in srv.catalog.databases {
      srv.Run(Statement.CreateDatabase(c.dbName));
    }
  }

  /** createLogin(connection). */
  method CreateLoginStep(srv: SqlServer, c: SqlServerConfig)
    modifies srv
    ensures srv.Model() == CreateLoginS(c, old(srv.Model()))
  {
    if c.username !in srv.catalog.logins {
      srv.Run(CreateLogin(c.username, c.password));
    }
  }

  /** createUser(dbConnection): user then grant, unless the user exists. */
  method CreateUserStep(srv: SqlServer, c: SqlServerConfig)
    modifies srv
    ensures srv.Model() == CreateUserS(c, old(srv.Model()))
  {
    if (c.dbName, c.username) !in srv.catalog.users {
      srv.Run(CreateUser(c.dbName, c.username, c.username));
      srv.Run(GrantOwner(c.dbName, c.username));
    }
  }

  /** createRoleAndDatabase(withDrop). */
  method CreateRoleAndDatabase(srv: SqlServer, c: SqlServerConfig, withDrop: bool, conn: Connections)
    returns (failure: Option<Failure>)
    modifies srv
    ensures (srv.Model(), failure) == RoleAndDatabaseS(c, withDrop, old(srv.Model()), conn)
  {
    if conn.admin.Some? {
      return Some(SqlError(AdminFailureMessage));
    }
    if withDrop {
      DropDatabaseIfExists(srv, c);
    }
    CreateDatabaseStep(srv, c);
    CreateLoginStep(srv, c);
    if conn.database.Some? {
      return Some(SqlError(conn.database.value));
    }
    CreateUserStep(srv, c);
    return None;
  }

  /** SqlServerContainer.createDatabase: createRoleAndDatabase(false). */
  method CreateDatabaseOnly(srv: SqlServer, c: SqlServerConfig, conn: Connections) returns (failure: Option<Failure>)
    modifies srv
    ensures (srv.Model(), failure) == RoleAndDatabaseS(c, false, old(srv.Model()), conn)
  {
    failure := CreateRoleAndDatabase(srv, c, false, conn);
  }

  /** SqlServerContainer.dropCreateDatabase: createRoleAndDatabase(true). */
  method DropCreateDatabase(srv: SqlServer, c: SqlServerConfig, conn: Connections) returns (failure: Option<Failure>)
    modifies srv
    ensures (srv.Model(), failure) == RoleAndDatabaseS(c, true, old(srv.Model()), conn)
  {
    failure := CreateRoleAndDatabase(srv, c, true, conn);
  }
}
