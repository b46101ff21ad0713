/** The runtime's command-line entry point: how it reads its arguments, how
    it normalises the two modes, which agent configuration file it reads, how
    it derives the operational gate from the reviewer failure counts and which
    exit code it ends with. */
module RuntimeMain {
  import opened Wrappers
  import opened Text
  import opened JsonValue
  import FileStateStore
  import AgentAdapter
  import AgentDefinitionPolicy

  // ---------------------------------------------------------------------------
  // readArg / hasFlag
  // ---------------------------------------------------------------------------

  /** The index of the last occurrence of `x` in `s`. */
  function LastIndex(s: seq<string>, x: string): (r: Option<nat>)
    ensures r.Some? ==> r.value < |s| && s[r.value] == x
    ensures r.Some? ==> forall j :: r.value < j < |s| ==> s[j] != x
    ensures r.None? <==> x !in s
    decreases |s|
  {
    if |s| == 0 then None
    else if s[|s| - 1] == x then Some(|s| - 1)
    else
      var r := LastIndex(s[..|s| - 1], x);
      assert forall y :: y in s <==> y in s[..|s| - 1] || y == s[|s| - 1];
      r
  }

  /** What `readArg` answers: the element after the last occurrence of the
      name, or the default when the name does not occur or its last
      occurrence ends the argument list. */
  function ArgValue(argv: seq<string>, name: string, default: string): string {
    match LastIndex(argv, name)
    case None => default
    case Some(k) => if k + 1 < |argv| then argv[k + 1] else default
  }

  /** `readArg`: a backward scan that stops at the last occurrence of the name. */
  method ReadArg(argv: seq<string>, name: string, default: string) returns (r: string)
    ensures r == ArgValue(argv, name, default)
  {
    var index := |argv| - 1;
    while index >= 0
      invariant -1 <= index < |argv|
      invariant forall j :: index < j < |argv| ==> argv[j] != name
    {
      if argv[index] != name {
        index := index - 1;
        continue;
      }
      if index + 1 >= |argv| {
        break;
      }
      assert LastIndex(argv, name) == Some(index);
      return argv[index + 1];
    }
    if index >= 0 {
      assert LastIndex(argv, name) == Some(index);
    } else {
      assert name !in argv;
    }
    return default;
  }

  /** `hasFlag`: the name occurs anywhere in the arguments. */
  predicate HasFlag(argv: seq<string>, name: string) {
    name in argv
  }

  /** Appending `name value` makes `value` the answer, whatever came before;
      a value equal to the name is itself the last occurrence and ends the
      list, so the default is read. */
  lemma ReadArgLastWins(pre: seq<string>, name: string, value: string, default: string)
    ensures ArgValue(pre + [name, value], name, default) == if value == name then default else value
  {
    var s := pre + [name, value];
    if value != name {
      assert s[|s| - 1] == value && s[|s| - 2] == name;
      assert s[..|s| - 1] == pre + [name];
    }
  }

  /** A name that occurs nowhere reads as the default. */
  lemma ReadArgAbsent(argv: seq<string>, name: string, default: string)
    requires name !in argv
    ensures ArgValue(argv, name, default) == default
  {
  }

  /** A name that ends the arguments reads as the default, even when an
      earlier occurrence had a value after it. */
  lemma ReadArgTrailing(pre: seq<string>, name: string, default: string)
    ensures ArgValue(pre + [name], name, default) == default
  {
    var s := pre + [name];
    assert s[|s| - 1] == name;
  }

  /** Arguments after the last occurrence of a name do not change its value
      as long as they do not mention it. */
  lemma {:induction false} ReadArgAppendOther(a: seq<string>, b: seq<string>, name: string, default: string)
    requires name !in b
    requires name in a && LastIndex(a, name).value + 1 < |a|
    ensures ArgValue(a + b, name, default) == ArgValue(a, name, default)
  {
    LastIndexAppend(a, b, name);
  }

  /** A `name value` pair followed only by arguments that do not mention the
      name is what `readArg` finds. */
  lemma ReadArgPair(pre: seq<string>, name: string, value: string, post: seq<string>, default: string)
    requires name !in post && value != name
    ensures ArgValue(pre + [name, value] + post, name, default) == value
  {
    var a := pre + [name, value];
    assert a[|a| - 1] == value && a[|a| - 2] == name;
    assert a[..|a| - 1] == pre + [name];
    LastIndexAppend(a, post, name);
    assert (a + post)[|a| - 1] == value;
  }

  /** The last occurrence in `a + b` is the one in `a` when `b` lacks the
      element. */
  lemma {:induction false} LastIndexAppend(a: seq<string>, b: seq<string>, x: string)
    requires x !in b
    ensures LastIndex(a + b, x) == LastIndex(a, x)
    decreases |b|
  {
    if |b| == 0 {
      assert a + b == a;
    } else {
      var s := a + b;
      assert s[|s| - 1] == b[|b| - 1];
      assert s[..|s| - 1] == a + b[..|b| - 1];
      assert x !in b[..|b| - 1] by {
        assert forall y :: y in b[..|b| - 1] ==> y in b;
      }
      LastIndexAppend(a, b[..|b| - 1], x);
    }
  }

  // ---------------------------------------------------------------------------
  // Mode normalisation
  // ---------------------------------------------------------------------------

  /** The reviewer mode handed to the runtime: `cli` only for the literal `cli`. */
  function ReviewerMode(arg: string): (r: string)
    ensures r == "cli" || r == "deterministic"
    ensures r == "cli" <==> arg == "cli"
  {
    if arg == "cli" then "cli" else "deterministic"
  }

  /** The CLI home mode handed to the runtime: `host` only for the literal `host`. */
  function CliHomeMode(arg: string): (r: string)
    ensures r == "host" || r == "isolated"
    ensures r == "host" <==> arg == "host"
  {
    if arg == "host" then "host" else "isolated"
  }

  /** The runtime's reviewer mode as read from the command line, default
      `deterministic`. */
  function ReviewerModeOf(argv: seq<string>): (r: string)
    ensures r == "cli" <==> ArgValue(argv, "--reviewer-mode", "deterministic") == "cli"
  {
    ReviewerMode(ArgValue(argv, "--reviewer-mode", "deterministic"))
  }

  /** The CLI home mode as read from the command line, default `isolated`. */
  function CliHomeModeOf(argv: seq<string>): (r: string)
    ensures r == "host" <==> ArgValue(argv, "--cli-home-mode", "isolated") == "host"
  {
    CliHomeMode(ArgValue(argv, "--cli-home-mode", "isolated"))
  }

  // ---------------------------------------------------------------------------
  // Agent configuration
  // ---------------------------------------------------------------------------

  /** The configuration file to read: the trimmed `--agents-config-json`, or
      else the trimmed `--agent-profiles-json`; empty for none. */
  function ConfigPath(argv: seq<string>): (r: string)
    ensures Trim(ArgValue(argv, "--agents-config-json", "")) != "" ==>
              r == Trim(ArgValue(argv, "--agents-config-json", ""))
    ensures Trim(ArgValue(argv, "--agents-config-json", "")) == "" ==>
              r == Trim(ArgValue(argv, "--agent-profiles-json", ""))
  {
    var agents := Trim(ArgValue(argv, "--agents-config-json", ""));
    if agents != "" then agents else Trim(ArgValue(argv, "--agent-profiles-json", ""))
  }

  /** The runtime configuration derived from an agent-definition document: a
      document with an `agents` array and `version` 1 goes through the
      agent-definition policy, any other document (or none) derives nothing. */
  function DerivedConfig(doc: Option<Value>): (r: Option<Result<(AgentAdapter.RuntimeAgentConfig, Value), string>>)
    ensures r.Some? <==> doc.Some? && Get(doc.value, "agents").Arr? && ToNumber(Get(doc.value, "version")) == Int(1)
    ensures r.Some? ==> r.value == AgentDefinitionPolicy.BuildRuntimeAgentConfigFromDefinitions(doc.value)
  {
    if doc.Some? && Get(doc.value, "agents").Arr? && ToNumber(Get(doc.value, "version")) == Int(1) then
      Some(AgentDefinitionPolicy.BuildRuntimeAgentConfigFromDefinitions(doc.value))
    else None
  }

  // ---------------------------------------------------------------------------
  // Operational gate and exit code
  // ---------------------------------------------------------------------------

  /** The operational gate: authentication failures first, then network, then
      execution; `healthy` when none were counted. */
  function OperationalGate(c: FileStateStore.FailureCounts): (r: string)
    ensures r == "block_and_fix_auth" <==> c.authError > 0
    ensures r == "manual_review_network_retry" <==> c.authError == 0 && c.networkError > 0
    ensures r == "manual_review_execution_retry" <==> c.authError == 0 && c.networkError == 0 && c.executionError > 0
    ensures r == "healthy" <==> c.authError == 0 && c.networkError == 0 && c.executionError == 0
  {
    if c.authError > 0 then "block_and_fix_auth"
    else if c.networkError > 0 then "manual_review_network_retry"
    else if c.executionError > 0 then "manual_review_execution_retry"
    else "healthy"
  }

  /** For the counts the store reports, whose total is the sum of the three
      classes, the gate is `healthy` exactly when no failure was counted. */
  lemma HealthyIffNoFailures(c: FileStateStore.FailureCounts)
    requires c.total == c.authError + c.networkError + c.executionError
    ensures OperationalGate(c) == "healthy" <==> c.total == 0
  {
  }

  /** The gate of the counts the store tallies over a task's cached reviews. */
  lemma StoreGate(rows: FileStateStore.Reviews)
    ensures var c := FileStateStore.RowsCount(rows);
      OperationalGate(c) == "healthy" <==> c.total == 0
  {
    FileStateStore.RowsCountTotal(rows);
    HealthyIffNoFailures(FileStateStore.RowsCount(rows));
  }

  /** The process exit code: 1 when no final decision was reached, else 0. */
  function ExitCode(finalDecision: Option<FileStateStore.Decision>): (code: int)
    ensures code == 0 || code == 1
    ensures code == 1 <==> finalDecision.None?
  {
    if finalDecision.None? then 1 else 0
  }
}
