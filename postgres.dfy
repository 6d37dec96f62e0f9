/** What the two Postgres container classes (org.avaje PostgresContainer and the older
    org.avaje postgres.PostgresCommands) share: the psql statements they render, the argument
    lists of the processes they start inside the container, how they read psql's output, the
    pg_isready wait and the extension loop. */
module Postgres {
  import opened JavaText
  import opened Polling
  import opened Runtime

  /** What psql prints for each statement during one call: the lines of standard output of the
      process, fixed per statement. A statement the map does not name prints nothing. */
  datatype PgOracle = PgOracle(stdout: map<PgSql, seq<string>>)

  function Reply(o: PgOracle, sql: PgSql): seq<string> {
    if sql in o.stdout then o.stdout[sql] else []
  }

  /* ---- reading psql output ---- */

  /** The status line psql prints when a query returns no row. */
  const ZeroRows := "(0 rows)"

  /** hasZeroRows exactly as written: the guard rejects fewer than two lines, then line 2 (the
      third line) is read, so exactly two lines fail with an index out of bounds. */
  function HasZeroRowsAsWritten(lines: seq<string>): (r: Outcome<bool>)
    ensures r.Raised? <==> |lines| < 3
    ensures |lines| < 2 ==> r == Raised(UnexpectedResults(lines))
    ensures r.Ok? ==> (r.value <==> lines[2] == ZeroRows)
  {
    if |lines| < 2 then Raised(UnexpectedResults(lines))
    else if |lines| == 2 then Raised(IndexOutOfBounds(2, |lines|))
    else Ok(lines[2] == ZeroRows)
  }

  /** hasZeroRows with the guard it evidently means: too short to hold the status line is
      "Unexpected results"; otherwise the third line says whether there was no row. */
  function HasZeroRows(lines: seq<string>): (r: Outcome<bool>)
    ensures r.Raised? <==> |lines| < 3
    ensures r.Raised? ==> r.failure == UnexpectedResults(lines)
    ensures r.Ok? ==> (r.value <==> lines[2] == ZeroRows)
  {
    if |lines| < 3 then Raised(UnexpectedResults(lines)) else Ok(lines[2] == ZeroRows)
  }

  /** A two-line output passes the written guard and then fails on get(2), with an exception
      other than the one the guard exists to raise. */
  lemma HasZeroRowsGuardMissesTwoLines(header: string, separator: string)
    ensures var lines := [header, separator];
      !(|lines| < 2)
      && HasZeroRowsAsWritten(lines) == Raised(IndexOutOfBounds(2, 2))
      && HasZeroRows(lines) == Raised(UnexpectedResults(lines))
  {
  }

  /** The two versions raise on exactly the same outputs and agree whenever they return; they
      differ only in which exception a two-line output raises. */
  lemma HasZeroRowsAgree(lines: seq<string>)
    ensures HasZeroRowsAsWritten(lines).Raised? <==> HasZeroRows(lines).Raised?
    ensures HasZeroRows(lines).Ok? ==> HasZeroRowsAsWritten(lines) == HasZeroRows(lines)
    ensures |lines| != 2 ==> HasZeroRowsAsWritten(lines) == HasZeroRows(lines)
  {
  }

  /** databaseExists / userExists: the negation of hasZeroRows on the query's output. */
  function ExistsAnswer(lines: seq<string>): (r: Outcome<bool>)
    ensures r.Raised? <==> HasZeroRows(lines).Raised?
    ensures r.Raised? ==> r == Raised(UnexpectedResults(lines))
    ensures r.Ok? ==> (r.value <==> !HasZeroRows(lines).value)
  {
    match HasZeroRows(lines)
    case Ok(zero) => Ok(!zero)
    case Raised(f) => Raised(f)
  }

  /* ---- statements and process arguments ---- */

  /** The SQL text of each statement. */
  function SqlText(sql: PgSql): string {
    match sql
    case CreateRole(role, password) => "create role " + role + " password '" + password + "' login"
    case CreateDatabase(db, owner) => "create database " + db + " with owner " + owner
    case DropDatabase(db) => "drop database if exists " + db
    case DropRole(role) => "drop role if exists " + role
    case RoleExists(role) => "select rolname from pg_roles where rolname = '" + role + "'"
    case DatabaseExists(db) => "select 1 from pg_database where datname = '" + db + "'"
    case CreateExtension(_, extension) => "create extension if not exists " + extension
  }

  /** The psql process for a statement: `docker exec -i <name> psql -U postgres [-d <db>] -c <sql>`;
      only extension statements name a database. */
  function PsqlArgs(docker: string, name: string, sql: PgSql): seq<string> {
    [docker, "exec", "-i", name, "psql", "-U", "postgres"]
    + (if sql.CreateExtension? then ["-d", sql.db] else [])
    + ["-c", SqlText(sql)]
  }

  /** The psql arguments always run as the postgres superuser in the named container and end
      with `-c` and the statement's text; `-d <db>` appears exactly for extension statements. */
  lemma PsqlArgsShape(docker: string, name: string, sql: PgSql)
    ensures var args := PsqlArgs(docker, name, sql);
      |args| == (if sql.CreateExtension? then 11 else 9)
      && args[..7] == [docker, "exec", "-i", name, "psql", "-U", "postgres"]
      && args[|args| - 2] == "-c" && args[|args| - 1] == SqlText(sql)
      && (sql.CreateExtension? ==> args[7] == "-d" && args[8] == sql.db)
  {
  }

  /** The readiness probe: `docker exec -i <name> pg_isready -h localhost -p <port>`. */
  function PgIsReadyArgs(docker: string, name: string, port: string): seq<string> {
    [docker, "exec", "-i", name, "pg_isready", "-h", "localhost", "-p", port]
  }

  /** The argument list of the process behind a recorded probe or psql statement. */
  function ExecArgs(docker: string, c: Command): seq<string>
    requires c.IsExec()
  {
    match c
    case PgIsReady(target, port) => PgIsReadyArgs(docker, target, port)
    case Psql(target, sql) => PsqlArgs(docker, target, sql)
  }

  /** Every probe and psql process is `docker exec -i` inside the container the command
      records; a probe asks pg_isready about localhost on the recorded port. */
  lemma ExecArgsShape(docker: string, c: Command)
    requires c.IsExec()
    ensures var args := ExecArgs(docker, c);
      |args| >= 9 && args[..4] == [docker, "exec", "-i", c.target]
      && (c.PgIsReady? ==> args[4..] == ["pg_isready", "-h", "localhost", "-p", c.port])
      && (c.Psql? ==> args[4..7] == ["psql", "-U", "postgres"] && args[|args| - 1] == SqlText(c.sql))
  {
  }

  /* ---- effects on the world ---- */

  /** An existence query in the target container: the statement is run and its output read by
      hasZeroRows. */
  function ExistsW(w: World, target: string, o: PgOracle, sql: PgSql): (World, Outcome<bool>) {
    (Issue(w, Psql(target, sql)), ExistsAnswer(Reply(o, sql)))
  }

  /** A statement whose success is judged by the number of lines psql printed. */
  function ExecW(w: World, target: string, o: PgOracle, sql: PgSql, expectedLines: nat): (World, bool) {
    (Issue(w, Psql(target, sql)), |Reply(o, sql)| == expectedLines)
  }

  /** n pg_isready probes against a port of the target container. */
  function ProbesW(w: World, target: string, port: string, n: nat): World {
    w.(trace := w.trace + Repeat(PgIsReady(target, port), n))
  }

  /** One extension statement per piece, in order. */
  function ExtensionStatements(db: string, pieces: seq<string>): (r: seq<PgSql>)
    ensures |r| == |pieces|
    ensures forall k :: 0 <= k < |pieces| ==> r[k] == CreateExtension(db, pieces[k])
  {
    seq(|pieces|, k requires 0 <= k < |pieces| => CreateExtension(db, pieces[k]))
  }

  function ExtensionCommands(target: string, db: string, pieces: seq<string>): (r: seq<Command>)
    ensures |r| == |pieces|
    ensures forall k :: 0 <= k < |pieces| ==> r[k] == Psql(target, CreateExtension(db, pieces[k]))
  {
    seq(|pieces|, k requires 0 <= k < |pieces| => Psql(target, CreateExtension(db, pieces[k])))
  }

  function ExtensionsW(w: World, target: string, db: string, pieces: seq<string>): World {
    w.(trace := w.trace + ExtensionCommands(target, db, pieces))
  }

  /** The extension commands change the database in exactly the order of the pieces. */
  lemma {:induction false} ExtensionProvisioning(target: string, db: string, pieces: seq<string>)
    ensures Provisioning(ExtensionCommands(target, db, pieces)) == ExtensionStatements(db, pieces)
    decreases |pieces|
  {
    if pieces != [] {
      var cs := ExtensionCommands(target, db, pieces);
      assert cs[1..] == ExtensionCommands(target, db, pieces[1..]);
      ExtensionProvisioning(target, db, pieces[1..]);
      assert ExtensionStatements(db, pieces) == [CreateExtension(db, pieces[0])] + ExtensionStatements(db, pieces[1..]);
    }
  }

  /** Probes never change the database. */
  lemma ProbesNoPsql(target: string, port: string, n: nat)
    ensures !AnyPsql(Repeat(PgIsReady(target, port), n))
    ensures Provisioning(Repeat(PgIsReady(target, port), n)) == []
  {
    NoPsqlNoProvisioning(Repeat(PgIsReady(target, port), n));
  }

  /* ---- which container the processes run in ---- */

  lemma ExistsConfined(w: World, target: string, o: PgOracle, sql: PgSql)
    ensures ExecsConfined(w, ExistsW(w, target, o, sql).0, target)
  {
    ConfinedAppend(w, Issue(w, Psql(target, sql)), [Psql(target, sql)], target);
  }

  lemma ExecConfined(w: World, target: string, o: PgOracle, sql: PgSql, expectedLines: nat)
    ensures ExecsConfined(w, ExecW(w, target, o, sql, expectedLines).0, target)
  {
    ConfinedAppend(w, Issue(w, Psql(target, sql)), [Psql(target, sql)], target);
  }

  lemma ProbesConfined(w: World, target: string, port: string, n: nat)
    ensures ExecsConfined(w, ProbesW(w, target, port, n), target)
  {
    ConfinedAppend(w, ProbesW(w, target, port, n), Repeat(PgIsReady(target, port), n), target);
  }

  lemma ExtensionsConfined(w: World, target: string, db: string, pieces: seq<string>)
    ensures ExecsConfined(w, ExtensionsW(w, target, db, pieces), target)
  {
    ConfinedAppend(w, ExtensionsW(w, target, db, pieces), ExtensionCommands(target, db, pieces), target);
  }

  /* ---- the operations themselves ---- */

  /** databaseExists / userExists: run the query in the target container and read its output. */
  method Exists(h: Host, target: string, o: PgOracle, sql: PgSql) returns (r: Outcome<bool>)
    modifies h
    ensures (h.Model(), r) == ExistsW(old(h.Model()), target, o, sql)
  {
    h.Execute(Psql(target, sql));
    var lines := Reply(o, sql);
    if |lines| < 3 {
      r := Raised(UnexpectedResults(lines));
    } else {
      r := Ok(lines[2] != ZeroRows);
    }
  }

  /** createUser / createDatabase (success on exactly two lines) and dropDatabase / dropUser
      (success on exactly one line). */
  method Exec(h: Host, target: string, o: PgOracle, sql: PgSql, expectedLines: nat) returns (ok: bool)
    modifies h
    ensures h.Model() == Issue(old(h.Model()), Psql(target, sql))
    ensures ok <==> |Reply(o, sql)| == expectedLines
  {
    h.Execute(Psql(target, sql));
    ok := |Reply(o, sql)| == expectedLines;
  }

  /** waitForDatabaseReady: one pg_isready probe per attempt, at most maxAttempts of them; an
      IOException while probing is a failed probe, an interrupted sleep ends the wait. */
  method WaitForDatabaseReady(h: Host, target: string, port: string, maxAttempts: int, ready: Poll) returns (ok: bool)
    modifies h
    ensures h.Model() == ProbesW(old(h.Model()), target, port, WaitOutcome(maxAttempts, ready).1)
    ensures ok == WaitOutcome(maxAttempts, ready).0
  {
    var i: nat := 0;
    while i < maxAttempts
      invariant i <= maxAttempts || i == 0
      invariant PollFrom(maxAttempts, ready, i) == WaitOutcome(maxAttempts, ready)
      invariant h.Model() == ProbesW(old(h.Model()), target, port, i)
      decreases maxAttempts - i
    {
      h.Execute(PgIsReady(target, port));
      assert Repeat(PgIsReady(target, port), i) + [PgIsReady(target, port)] == Repeat(PgIsReady(target, port), i + 1);
      if At(ready.success, i) {
        return true;
      }
      if At(ready.interrupted, i) {
        return false;
      }
      i := i + 1;
    }
    return false;
  }

  /** The extension loop: one statement per piece, in order. */
  method CreateExtensions(h: Host, target: string, db: string, pieces: seq<string>)
    modifies h
    ensures h.Model() == ExtensionsW(old(h.Model()), target, db, pieces)
  {
    for i := 0 to |pieces|
      invariant h.Model() == ExtensionsW(old(h.Model()), target, db, pieces[..i])
    {
      h.Execute(Psql(target, CreateExtension(db, pieces[i])));
      assert ExtensionCommands(target, db, pieces[..i + 1])
        == ExtensionCommands(target, db, pieces[..i]) + [Psql(target, CreateExtension(db, pieces[i]))];
    }
    assert pieces[..|pieces|] == pieces;
  }
}
