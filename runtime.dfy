/** The world the container code acts on through collaborators it does not own: the container
    runtime (reached through the Commands adapter and ProcessHandler) and the commands issued to
    it. A container is Absent, Stopped (registered but not running) or Running; the trace
    records, in order, every command that changes the runtime or is executed as a process. */
module Runtime {

  /** A Java reference that may be null. */
  datatype Option<+T> = None | Some(value: T)

  datatype ContainerState = Absent | Stopped | Running

  /** A psql statement run inside the Postgres container (rendered by module Postgres). */
  datatype PgSql =
    | CreateRole(role: string, password: string)
    | CreateDatabase(db: string, owner: string)
    | DropDatabase(db: string)
    | DropRole(role: string)
    | RoleExists(role: string)
    | DatabaseExists(db: string)
    | CreateExtension(db: string, extension: string)
  {
    /** Statements that change the database, as opposed to the two existence queries. */
    predicate Mutates() {
      !RoleExists? && !DatabaseExists?
    }
  }

  datatype Command =
    | Run(args: seq<string>)        // ProcessHandler.process(runProcess()): a fresh `docker run`
    | Resume(name: string)          // Commands.start(name)
    | StopIfRunning(name: string)   // Commands.stopIfRunning(name)
    | StopRemove(name: string)      // Commands.stopRemove(name)
    | PgIsReady(target: string, port: string) // one pg_isready probe, via docker exec in target
    | Psql(target: string, sql: PgSql)        // one psql statement, via docker exec in target
  {
    /** A process started inside a container with `docker exec`. */
    predicate IsExec() {
      PgIsReady? || Psql?
    }
  }

  /** A raised Java exception. */
  datatype Failure =
    | UnexpectedResults(lines: seq<string>)   // RuntimeException("Unexpected results - lines:...")
    | IndexOutOfBounds(index: int, size: int) // List.get past the end
    | SqlError(message: string)               // RuntimeException wrapping an SQLException
    | IllegalArgument(message: string)        // IllegalArgumentException

  /** The result of a Java call that returns a value or raises. */
  datatype Outcome<+T> = Ok(value: T) | Raised(failure: Failure)

  datatype World = World(containers: map<string, ContainerState>, trace: seq<Command>)

  function StateOf(w: World, name: string): ContainerState {
    if name in w.containers then w.containers[name] else Absent
  }

  /* ---- effect of each command on the world ---- */

  function Issue(w: World, c: Command): World {
    w.(trace := w.trace + [c])
  }

  function RunW(w: World, name: string, args: seq<string>): World {
    World(w.containers[name := Running], w.trace + [Run(args)])
  }

  /** `docker start`: a registered container runs again; an unknown name changes nothing. */
  function ResumeW(w: World, name: string): World {
    var cs := if StateOf(w, name) == Absent then w.containers else w.containers[name := Running];
    World(cs, w.trace + [Resume(name)])
  }

  function StopIfRunningW(w: World, name: string): World {
    var cs := if StateOf(w, name) == Running then w.containers[name := Stopped] else w.containers;
    World(cs, w.trace + [StopIfRunning(name)])
  }

  function StopRemoveW(w: World, name: string): World {
    World(w.containers - {name}, w.trace + [StopRemove(name)])
  }

  /** n copies of one command. */
  function Repeat(c: Command, n: nat): (r: seq<Command>)
    ensures |r| == n && forall k :: 0 <= k < n ==> r[k] == c
  {
    if n == 0 then [] else Repeat(c, n - 1) + [c]
  }

  /** The commands added to the trace between two worlds. */
  function Added(w: World, w': World): seq<Command>
    requires |w.trace| <= |w'.trace|
  {
    w'.trace[|w.trace|..]
  }

  predicate Extends(w: World, w': World) {
    |w.trace| <= |w'.trace| && w'.trace[..|w.trace|] == w.trace
  }

  /** The psql statements in a trace that change the database, in the order they were issued. */
  function Provisioning(t: seq<Command>): (r: seq<PgSql>)
    ensures forall k :: 0 <= k < |r| ==> r[k].Mutates()
  {
    if t == [] then []
    else (if t[0].Psql? && t[0].sql.Mutates() then [t[0].sql] else []) + Provisioning(t[1..])
  }

  lemma {:induction false} ProvisioningAppend(a: seq<Command>, b: seq<Command>)
    ensures Provisioning(a + b) == Provisioning(a) + Provisioning(b)
    decreases |a|
  {
    if a == [] {
      assert a + b == b;
    } else {
      assert (a + b)[1..] == a[1..] + b;
      ProvisioningAppend(a[1..], b);
    }
  }

  /** Appending one command adds its statement to the provisioning exactly when it is a
      database-changing psql statement. */
  lemma ProvisioningIssue(t: seq<Command>, c: Command)
    ensures Provisioning(t + [c]) ==
      Provisioning(t) + (if c.Psql? && c.sql.Mutates() then [c.sql] else [])
  {
    ProvisioningAppend(t, [c]);
    assert [c][1..] == [];
  }

  /** Whether any command of a trace is a psql statement (query or change). */
  predicate AnyPsql(t: seq<Command>) {
    exists k :: 0 <= k < |t| && t[k].Psql?
  }

  lemma NoPsqlConcat(a: seq<Command>, b: seq<Command>)
    requires !AnyPsql(a) && !AnyPsql(b)
    ensures !AnyPsql(a + b)
  {
    forall k | 0 <= k < |a + b| ensures !(a + b)[k].Psql? {
      if k < |a| { assert (a + b)[k] == a[k]; } else { assert (a + b)[k] == b[k - |a|]; }
    }
  }

  /** Every `docker exec` process in a trace runs inside the named container. */
  predicate ExecsIn(t: seq<Command>, name: string) {
    forall k :: 0 <= k < |t| && t[k].IsExec() ==> t[k].target == name
  }

  lemma ExecsInConcat(a: seq<Command>, b: seq<Command>, name: string)
    requires ExecsIn(a, name) && ExecsIn(b, name)
    ensures ExecsIn(a + b, name)
  {
    forall k | 0 <= k < |a + b| && (a + b)[k].IsExec() ensures (a + b)[k].target == name {
      if k < |a| { assert (a + b)[k] == a[k]; } else { assert (a + b)[k] == b[k - |a|]; }
    }
  }

  /** w' extends w's trace, and every `docker exec` process it adds runs inside the named
      container. */
  predicate ExecsConfined(w: World, w': World, name: string) {
    Extends(w, w') && ExecsIn(w'.trace[|w.trace|..], name)
  }

  lemma ConfinedAppend(w: World, w': World, cs: seq<Command>, name: string)
    requires w'.trace == w.trace + cs && ExecsIn(cs, name)
    ensures ExecsConfined(w, w', name)
  {
    assert w'.trace[|w.trace|..] == cs;
    assert w'.trace[..|w.trace|] == w.trace;
  }

  lemma ConfinedRefl(w: World, name: string)
    ensures ExecsConfined(w, w, name)
  {
    assert w.trace[|w.trace|..] == [];
  }

  lemma ConfinedTrans(w1: World, w2: World, w3: World, name: string)
    requires ExecsConfined(w1, w2, name) && ExecsConfined(w2, w3, name)
    ensures ExecsConfined(w1, w3, name)
  {
    var a := w2.trace[|w1.trace|..];
    var b := w3.trace[|w2.trace|..];
    assert w2.trace == w1.trace + a;
    assert w3.trace == w2.trace + b;
    assert w3.trace[|w1.trace|..] == a + b;
    ExecsInConcat(a, b, name);
  }

  lemma {:induction false} NoPsqlNoProvisioning(t: seq<Command>)
    requires !AnyPsql(t)
    ensures Provisioning(t) == []
    decreases |t|
  {
    if t != [] {
      assert !AnyPsql(t[1..]) by {
        forall k | 0 <= k < |t[1..]| ensures !t[1..][k].Psql? {
          assert t[1..][k] == t[k + 1];
        }
      }
      NoPsqlNoProvisioning(t[1..]);
    }
  }

  /** The runtime and the command log, as the container code sees them. */
  class Host {
    var containers: map<string, ContainerState>
    var trace: seq<Command>

    function Model(): World
      reads this
    {
      World(containers, trace)
    }

    constructor (w: World)
      ensures Model() == w
    {
      containers := w.containers;
      trace := w.trace;
    }

    /** Commands.isRunning(name). */
    method IsRunning(name: string) returns (b: bool)
      ensures b <==> StateOf(Model(), name) == Running
    {
      b := name in containers && containers[name] == Running;
    }

    /** Commands.isRegistered(name): known to the runtime, running or not. */
    method IsRegistered(name: string) returns (b: bool)
      ensures b <==> StateOf(Model(), name) != Absent
    {
      b := name in containers && containers[name] != Absent;
    }

    method Run(name: string, args: seq<string>)
      modifies this
      ensures Model() == RunW(old(Model()), name, args)
    {
      containers := containers[name := Running];
      trace := trace + [Command.Run(args)];
    }

    method Resume(name: string)
      modifies this
      ensures Model() == ResumeW(old(Model()), name)
    {
      if name in containers && containers[name] != Absent {
        containers := containers[name := Running];
      }
      trace := trace + [Command.Resume(name)];
    }

    method StopIfRunning(name: string)
      modifies this
      ensures Model() == StopIfRunningW(old(Model()), name)
    {
      if name in containers && containers[name] == Running {
        containers := containers[name := Stopped];
      }
      trace := trace + [Command.StopIfRunning(name)];
    }

    method StopRemove(name: string)
      modifies this
      ensures Model() == StopRemoveW(old(Model()), name)
    {
      containers := containers - {name};
      trace := trace + [Command.StopRemove(name)];
    }

    /** Executes a command that leaves the container registry alone (a probe or a psql statement). */
    method Execute(c: Command)
      modifies this
      ensures Model() == Issue(old(Model()), c)
    {
      trace := trace + [c];
    }
  }
}
