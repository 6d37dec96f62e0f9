/** io.ebean.docker.commands.DbContainer: the start mode of a database container and how the
    setting selects it, the two readiness condition loops, the "defined" check and the
    predicates that judge a process by its output lines.

    The io.ebean BaseContainer it extends is not part of this model; its startIfNeeded and
    waitForConnectivity are taken to behave as the org.avaje ones in module BaseContainer. */
module DbContainer {
  import opened JavaText
  import opened Polling
  import opened Runtime
  import opened BaseContainer

  /* ---- start mode ---- */

  datatype Mode = Create | DropCreate | ContainerOnly

  /** startForMode's switch on the lower-cased, trimmed setting: "dropcreate" and "container"
      select their flows; "create" and anything else select Create. */
  function ModeOf(setting: string): (m: Mode)
    ensures m == DropCreate <==> Trim(Lower(setting)) == "dropcreate"
    ensures m == ContainerOnly <==> Trim(Lower(setting)) == "container"
    ensures m == Create <==> Trim(Lower(setting)) != "dropcreate" && Trim(Lower(setting)) != "container"
  {
    match Trim(Lower(setting))
    case "create" => Create
    case "dropcreate" => DropCreate
    case "container" => ContainerOnly
    case _ => Create
  }

  /** The mode setting ignores case and blanks around it. */
  lemma ModeOfIgnoresCaseAndPadding(left: string, setting: string, right: string)
    requires Blank(left) && Blank(right)
    ensures ModeOf(left + setting + right) == ModeOf(setting)
    ensures ModeOf(Lower(setting)) == ModeOf(setting)
  {
    NormalizeIgnoresCaseAndPadding(left, setting, right);
  }

  /* ---- defined ---- */

  /** defined(val): not null and not blank after trim. */
  predicate Defined(val: Option<string>) {
    val.Some? && Trim(val.value) != ""
  }

  /** A value is defined exactly when it is present and has a character trim would keep. */
  lemma DefinedIffVisibleCharacter(val: Option<string>)
    ensures Defined(val) <==> val.Some? && exists i :: 0 <= i < |val.value| && !IsTrimmed(val.value[i])
  {
    if val.Some? {
      TrimEmptyIffAllTrimmed(val.value);
    }
  }

  /* ---- judging a process by its output ---- */

  /** stdoutContains: some output line contains the expected text. */
  function StdoutContains(outLines: seq<string>, expected: string): (r: bool)
    ensures r <==> exists k :: 0 <= k < |outLines| && Contains(outLines[k], expected)
    decreases |outLines|
  {
    if outLines == [] then false
    else if Contains(outLines[0], expected) then true
    else
      var rest := StdoutContains(outLines[1..], expected);
      assert forall k :: 1 <= k < |outLines| ==> outLines[k] == outLines[1..][k - 1];
      rest
  }

  /** execute(expectedLine, pb[, errorMessage]): success when the expected text appears. */
  function Execute(expectedLine: string, outLines: seq<string>): bool {
    StdoutContains(outLines, expectedLine)
  }

  /** executeWithout(errorMatch, pb, errorMessage): success when the error text does not appear. */
  function ExecuteWithout(errorMatch: string, outLines: seq<string>): bool {
    !StdoutContains(outLines, errorMatch)
  }

  /** execute(pb, errorMessage): success when the process printed nothing. */
  function ExecuteExpectingNoOutput(outLines: seq<string>): bool {
    outLines == []
  }

  /** How the three predicates relate: execute holds iff some line contains the text,
      executeWithout iff no line does, so one is the negation of the other; and a process that
      printed nothing fails execute and passes executeWithout, whatever the text. */
  lemma ExecuteVariants(text: string, outLines: seq<string>)
    ensures Execute(text, outLines) <==> exists k :: 0 <= k < |outLines| && Contains(outLines[k], text)
    ensures ExecuteWithout(text, outLines) <==> forall k :: 0 <= k < |outLines| ==> !Contains(outLines[k], text)
    ensures ExecuteWithout(text, outLines) <==> !Execute(text, outLines)
    ensures ExecuteExpectingNoOutput(outLines) ==> !Execute(text, outLines) && ExecuteWithout(text, outLines)
  {
  }

  /** Every string contains the empty text, so execute with an empty expected line succeeds
      exactly when the process printed something. */
  lemma ExecuteEmptyExpectation(outLines: seq<string>)
    ensures Execute("", outLines) <==> !ExecuteExpectingNoOutput(outLines)
  {
    if outLines != [] {
      assert ContainsAt(outLines[0], "", 0);
    }
  }

  /* ---- the condition loops ---- */

  /** One evaluation of a readiness condition: true, false, or a CommandException. */
  datatype Attempt = Holds | Fails | Throws

  /** The condition outcomes as a probe oracle; an attempt past the end fails. */
  function Successes(attempts: seq<Attempt>): (s: seq<bool>)
    ensures |s| == |attempts|
    ensures forall k :: 0 <= k < |attempts| ==> (s[k] <==> attempts[k] == Holds)
  {
    seq(|attempts|, k requires 0 <= k < |attempts| => attempts[k].Holds?)
  }

  /** conditionLoop is the bounded wait with no interruption at all: pause() swallows it. */
  function ConditionOutcome(maxAttempts: int, attempts: seq<Attempt>): (bool, nat) {
    WaitOutcome(maxAttempts, Poll(Successes(attempts), []))
  }

  /** The loop succeeds iff the condition holds at some attempt within the budget, and then it
      stopped at the first such attempt; a false or a CommandException never ends it early, so
      a failing loop evaluated the condition exactly maxAttempts times. */
  lemma ConditionLoopMeaning(maxAttempts: int, attempts: seq<Attempt>)
    ensures var (ok, n) := ConditionOutcome(maxAttempts, attempts);
      (ok <==> exists j :: 0 <= j < maxAttempts && j < |attempts| && attempts[j] == Holds)
      && (ok ==> 0 < n <= |attempts| && attempts[n - 1] == Holds && forall k :: 0 <= k < n - 1 ==> attempts[k] != Holds)
      && (!ok ==> n == (if maxAttempts > 0 then maxAttempts else 0))
  {
    var p := Poll(Successes(attempts), []);
    WaitOutcomeMeaning(maxAttempts, p);
    var (ok, n) := ConditionOutcome(maxAttempts, attempts);
    if ok {
      assert At(p.success, n - 1);
      forall k | 0 <= k < n - 1 ensures attempts[k] != Holds {
        assert !At(p.success, k);
      }
    } else {
      if n > 0 { assert !At(p.interrupted, n - 1); }
      if j :| 0 <= j < maxAttempts && j < |attempts| && attempts[j] == Holds {
        assert At(p.success, j);
        assert false;
      }
    }
  }

  /** conditionLoop: at most maxAttempts evaluations; true at the first that holds. A false
      result or a CommandException is followed by a pause, and an interrupted pause only
      restores the interrupt flag and the loop goes on, so whether a pause was interrupted
      does not affect the outcome and is not an input here. */
  method ConditionLoop(maxAttempts: int, attempts: seq<Attempt>)
    returns (ok: bool, evaluations: nat)
    ensures (ok, evaluations) == ConditionOutcome(maxAttempts, attempts)
  {
    var i: nat := 0;
    while i < maxAttempts
      invariant i <= maxAttempts || i == 0
      invariant PollFrom(maxAttempts, Poll(Successes(attempts), []), i) == ConditionOutcome(maxAttempts, attempts)
      decreases maxAttempts - i
    {
      var attempt := if i < |attempts| then attempts[i] else Fails;
      if attempt == Holds {
        return true, i + 1;
      }
      i := i + 1;
    }
    return false, i;
  }

  /** waitForDatabaseReady: the database condition loop, then the admin one only if the first
      succeeded. */
  method WaitForDatabaseReady(maxAttempts: int, dbReady: seq<Attempt>, adminReady: seq<Attempt>)
    returns (ok: bool, adminEvaluations: nat)
    ensures ok <==> ConditionOutcome(maxAttempts, dbReady).0 && ConditionOutcome(maxAttempts, adminReady).0
    ensures !ConditionOutcome(maxAttempts, dbReady).0 ==> adminEvaluations == 0
    ensures ConditionOutcome(maxAttempts, dbReady).0 ==> adminEvaluations == ConditionOutcome(maxAttempts, adminReady).1
  {
    var dbEvaluations;
    ok, dbEvaluations := ConditionLoop(maxAttempts, dbReady);
    adminEvaluations := 0;
    if ok {
      ok, adminEvaluations := ConditionLoop(maxAttempts, adminReady);
    }
  }

  /* ---- the container ---- */

  /** The state a DbContainer keeps: the configuration it reads and the start mode its start
      methods record. */
  class DbContainer {
    var startMode: Option<Mode>
    const containerName: string
    const runArgs: seq<string>
    const startModeSetting: string
    const maxReadyAttempts: int

    constructor (containerName: string, runArgs: seq<string>, startModeSetting: string, maxReadyAttempts: int)
      ensures startMode == None
      ensures this.containerName == containerName && this.runArgs == runArgs
      ensures this.startModeSetting == startModeSetting && this.maxReadyAttempts == maxReadyAttempts
    {
      startMode := None;
      this.containerName := containerName;
      this.runArgs := runArgs;
      this.startModeSetting := startModeSetting;
      this.maxReadyAttempts := maxReadyAttempts;
    }

    /** startWithCreate: records Create, then startWithConnectivity, whose outcome is given. */
    method StartWithCreate(connected: bool) returns (ok: bool)
      modifies this
      ensures startMode == Some(Create) && ok == connected
    {
      startMode := Some(Create);
      ok := connected;
    }

    /** startWithDropCreate: records DropCreate, then startWithConnectivity. */
    method StartWithDropCreate(connected: bool) returns (ok: bool)
      modifies this
      ensures startMode == Some(DropCreate) && ok == connected
    {
      startMode := Some(DropCreate);
      ok := connected;
    }

    /** startContainerOnly: records ContainerOnly, brings the container up and returns true iff
        both condition loops and then the connectivity wait succeed. */
    method StartContainerOnly(h: Host, dbReady: seq<Attempt>, adminReady: seq<Attempt>, connect: Poll)
      returns (ok: bool)
      modifies this, h
      ensures startMode == Some(ContainerOnly)
      ensures h.Model() == StartIfNeededW(old(h.Model()), containerName, runArgs)
      ensures ok <==> ConditionOutcome(maxReadyAttempts, dbReady).0
                      && ConditionOutcome(maxReadyAttempts, adminReady).0
                      && WaitOutcome(ConnectivityAttempts, connect).0
    {
      startMode := Some(ContainerOnly);
      StartIfNeeded(h, containerName, runArgs);
      var ready, adminEvaluations := WaitForDatabaseReady(maxReadyAttempts, dbReady, adminReady);
      if !ready {
        return false;
      }
      var attempts;
      ok, attempts := WaitForConnectivity(connect);
    }

    /** startForMode: the mode the setting selects is recorded and its flow run. */
    method StartForMode(h: Host, createConnected: bool, dropCreateConnected: bool,
                        dbReady: seq<Attempt>, adminReady: seq<Attempt>, connect: Poll)
      returns (ok: bool)
      modifies this, h
      ensures startMode == Some(ModeOf(startModeSetting))
      ensures ModeOf(startModeSetting) == Create ==> ok == createConnected && h.Model() == old(h.Model())
      ensures ModeOf(startModeSetting) == DropCreate ==> ok == dropCreateConnected && h.Model() == old(h.Model())
      ensures ModeOf(startModeSetting) == ContainerOnly ==>
        h.Model() == StartIfNeededW(old(h.Model()), containerName, runArgs)
        && (ok <==> ConditionOutcome(maxReadyAttempts, dbReady).0
                    && ConditionOutcome(maxReadyAttempts, adminReady).0
                    && WaitOutcome(ConnectivityAttempts, connect).0)
    {
      match Trim(Lower(startModeSetting))
      case "create" => ok := StartWithCreate(createConnected);
      case "dropcreate" => ok := StartWithDropCreate(dropCreateConnected);
      case "container" => ok := StartContainerOnly(h, dbReady, adminReady, connect);
      case _ => ok := StartWithCreate(createConnected);
    }
  }
}
