/** org.avaje.docker.commands.BaseContainer: bringing a named container up (run, resume or
    leave alone), waiting for client connectivity, and stopping it in one of two modes. */
module BaseContainer {
  import opened JavaText
  import opened Polling
  import opened Runtime

  /** How many connection attempts waitForConnectivity makes at most. */
  const ConnectivityAttempts := 120

  /* ---- startIfNeeded ---- */

  function StartIfNeededW(w: World, name: string, runArgs: seq<string>): World {
    match StateOf(w, name)
    case Running => w
    case Stopped => ResumeW(w, name)
    case Absent => RunW(w, name, runArgs)
  }

  /** The commands startIfNeeded issues for a container in a given state. */
  function StartCommands(state: ContainerState, name: string, runArgs: seq<string>): seq<Command> {
    match state
    case Running => []
    case Stopped => [Resume(name)]
    case Absent => [Run(runArgs)]
  }

  /** A running container is left alone (no command at all); a registered, stopped one is
      resumed; only an unknown name gets a fresh run. Either way the container is running
      afterwards and no other container changes. */
  lemma StartIfNeededMeaning(w: World, name: string, runArgs: seq<string>)
    ensures var w' := StartIfNeededW(w, name, runArgs);
      w'.trace == w.trace + StartCommands(StateOf(w, name), name, runArgs)
      && StateOf(w', name) == Running
      && (forall other :: other != name ==> StateOf(w', other) == StateOf(w, other))
  {
  }

  /** Bringing the container up issues no psql statement. */
  lemma StartCommandsNoPsql(state: ContainerState, name: string, runArgs: seq<string>)
    ensures !AnyPsql(StartCommands(state, name, runArgs))
    ensures Provisioning(StartCommands(state, name, runArgs)) == []
  {
  }

  /** Bringing the container up starts no process inside any container. */
  lemma StartIfNeededConfined(w: World, name: string, runArgs: seq<string>, target: string)
    ensures ExecsConfined(w, StartIfNeededW(w, name, runArgs), target)
  {
    StartIfNeededMeaning(w, name, runArgs);
    ConfinedAppend(w, StartIfNeededW(w, name, runArgs), StartCommands(StateOf(w, name), name, runArgs), target);
  }

  /** BaseContainer.startIfNeeded. */
  method StartIfNeeded(h: Host, name: string, runArgs: seq<string>)
    modifies h
    ensures h.Model() == StartIfNeededW(old(h.Model()), name, runArgs)
  {
    var running := h.IsRunning(name);
    if !running {
      var registered := h.IsRegistered(name);
      if registered {
        h.Resume(name);
      } else {
        h.Run(name, runArgs);
      }
    }
  }

  /* ---- waitForConnectivity and start ---- */

  /** BaseContainer.waitForConnectivity: at most 120 connection attempts, true at the first
      that succeeds, false at once when a sleep is interrupted. */
  method WaitForConnectivity(connect: Poll) returns (ok: bool, attempts: nat)
    ensures (ok, attempts) == WaitOutcome(ConnectivityAttempts, connect)
    ensures attempts <= ConnectivityAttempts
    ensures ok <==> attempts > 0 && At(connect.success, attempts - 1)
  {
    WaitOutcomeMeaning(ConnectivityAttempts, connect);
    ok, attempts := Wait(ConnectivityAttempts, connect);
  }

  /** BaseContainer.start: true exactly when the connectivity wait succeeds after the container
      has been brought up. */
  method Start(h: Host, name: string, runArgs: seq<string>, connect: Poll) returns (ok: bool)
    modifies h
    ensures h.Model() == StartIfNeededW(old(h.Model()), name, runArgs)
    ensures ok == WaitOutcome(ConnectivityAttempts, connect).0
  {
    StartIfNeeded(h, name, runArgs);
    var attempts;
    ok, attempts := WaitForConnectivity(connect);
  }

  /* ---- stop ---- */

  datatype StopMode = StopOnly | Remove

  /** The stop-mode switch: lower-cased and trimmed "remove" removes, anything else only stops. */
  function StopModeOf(setting: string): (m: StopMode)
    ensures m == Remove <==> Trim(Lower(setting)) == "remove"
  {
    match Trim(Lower(setting))
    case "stop" => StopOnly
    case "remove" => Remove
    case _ => StopOnly
  }

  /** The stop mode depends on the setting only through its normalised form. */
  lemma StopModeOfNormalForm(a: string, b: string)
    requires Trim(Lower(a)) == Trim(Lower(b))
    ensures StopModeOf(a) == StopModeOf(b)
  {
  }

  /** The stop mode ignores case and blanks around the setting: " REMOVE " removes. */
  lemma StopModeIgnoresCaseAndPadding(left: string, setting: string, right: string)
    requires Blank(left) && Blank(right)
    ensures StopModeOf(left + setting + right) == StopModeOf(setting)
    ensures StopModeOf(Lower(setting)) == StopModeOf(setting)
  {
    NormalizeIgnoresCaseAndPadding(left, setting, right);
    StopModeOfNormalForm(left + setting + right, setting);
    StopModeOfNormalForm(Lower(setting), setting);
  }

  /** " REMOVE " and any other padding of "remove" removes. */
  lemma PaddedRemoveRemoves(left: string, right: string)
    requires Blank(left) && Blank(right)
    ensures StopModeOf(left + "remove" + right) == Remove
  {
    PaddedNormalForm(left, "remove", right);
  }

  function StopW(w: World, name: string, setting: string): World {
    match StopModeOf(setting)
    case StopOnly => StopIfRunningW(w, name)
    case Remove => StopRemoveW(w, name)
  }

  /** After a Remove stop the container is gone; after any other stop it is not running but is
      still registered if it was before. One adapter call is made, for the configured name. */
  lemma StopMeaning(w: World, name: string, setting: string)
    ensures var w' := StopW(w, name, setting);
      Extends(w, w')
      && StateOf(w', name) != Running
      && (StopModeOf(setting) == Remove ==>
            StateOf(w', name) == Absent && Added(w, w') == [Command.StopRemove(name)])
      && (StopModeOf(setting) == StopOnly ==>
            (StateOf(w', name) == Absent <==> StateOf(w, name) == Absent)
            && Added(w, w') == [Command.StopIfRunning(name)])
      && (forall other :: other != name ==> StateOf(w', other) == StateOf(w, other))
  {
    var w' := StopW(w, name, setting);
    assert w'.trace[..|w.trace|] == w.trace;
  }

  /** BaseContainer.stop. */
  method Stop(h: Host, name: string, setting: string)
    modifies h
    ensures h.Model() == StopW(old(h.Model()), name, setting)
  {
    match Trim(Lower(setting))
    case "stop" => StopOnlyCall(h, name);
    case "remove" => StopRemoveCall(h, name);
    case _ => StopOnlyCall(h, name);
  }

  /** BaseContainer.stopRemove: delegates to Commands.stopRemove for the container's name. */
  method StopRemoveCall(h: Host, name: string)
    modifies h
    ensures h.Model() == StopRemoveW(old(h.Model()), name)
  {
    h.StopRemove(name);
  }

  /** BaseContainer.stopOnly: delegates to Commands.stopIfRunning for the container's name. */
  method StopOnlyCall(h: Host, name: string)
    modifies h
    ensures h.Model() == StopIfRunningW(old(h.Model()), name)
  {
    h.StopIfRunning(name);
  }
}
