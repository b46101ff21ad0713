/** Agent definition documents: every agent's id, role and provider checked,
    its allowed message types, command template and environment filled in
    from the role and provider defaults and the named environment profile,
    and the runtime configuration derived from the reviewer-capable agents.

    A document is the JSON value read from its file. Objects are field lists;
    a spread `{...a, ...b}` assigns `b`'s fields onto `a`'s in order. */
module AgentDefinitionPolicy {
  import opened Wrappers
  import opened Text
  import opened JsonValue
  import opened StringOrder
  import AgentAdapter

  // ---------------------------------------------------------------------------
  // Role and provider defaults
  // ---------------------------------------------------------------------------

  const Roles: seq<string> := ["reviewer", "coder", "frontend_coder", "backend_coder", "qa_tester", "documenter",
                               "researcher", "architect", "aggregator", "orchestrator"]

  /** The worker roles, which review by default. */
  predicate WorkerRole(role: string) {
    || role == "reviewer" || role == "coder" || role == "frontend_coder" || role == "backend_coder"
    || role == "qa_tester" || role == "documenter" || role == "researcher" || role == "architect"
  }

  const WorkerTypes: seq<string> := ["task_assignment", "review_result"]
  const AggregatorTypes: seq<string> := ["review_result", "aggregation_result"]
  const OrchestratorTypes: seq<string> := ["task_assignment", "aggregation_result", "control", "error"]

  /** `ROLE_ALLOWED_MESSAGE_TYPES[role]`: the default allow-list of a known
      role. Only the orchestrator's list lacks `review_result`. */
  function RoleAllowed(role: string): (r: Option<seq<string>>)
    ensures r.Some? <==> role in Roles
    ensures r.Some? && WorkerRole(role) ==> r.value == WorkerTypes
    ensures role == "aggregator" ==> r == Some(AggregatorTypes)
    ensures role == "orchestrator" ==> r == Some(OrchestratorTypes)
  {
    if role == "aggregator" then Some(AggregatorTypes)
    else if role == "orchestrator" then Some(OrchestratorTypes)
    else if WorkerRole(role) then Some(WorkerTypes)
    else None
  }

  /** A supported provider: `codex`, `claude` or `local`. */
  predicate KnownProvider(provider: Value) {
    provider == Str("codex") || provider == Str("claude") || provider == Str("local")
  }

  /** `defaultCommandTemplateFor`: the provider's CLI, which takes the prompt,
      for `codex` and `claude`; otherwise a node script chosen by role. */
  function DefaultCommandTemplateFor(provider: Value, role: Value): (r: seq<string>)
    ensures |r| >= 2
    ensures r[0] == (if provider == Str("codex") then "codex" else if provider == Str("claude") then "claude" else "node")
    ensures r[|r| - 1] == "{prompt}" <==> provider == Str("codex") || provider == Str("claude")
    ensures provider != Str("codex") && provider != Str("claude") ==>
      r[1] == (if role == Str("aggregator") then "dist/aggregator.js"
               else if role == Str("orchestrator") then "dist/orchestrator.js" else "dist/worker.js")
  {
    if provider == Str("codex") then
      ["codex", "exec", "--full-auto", "--sandbox", "read-only", "--cd", "{repo_root}", "{prompt}"]
    else if provider == Str("claude") then ["claude", "-p", "{prompt}"]
    else if role == Str("aggregator") then ["node", "dist/aggregator.js"]
    else if role == Str("orchestrator") then ["node", "dist/orchestrator.js"]
    else ["node", "dist/worker.js"]
  }

  /** `defaultEnvProfileFor`. */
  function DefaultEnvProfileFor(provider: Value): string {
    if provider == Str("codex") then "codex-reviewer"
    else if provider == Str("claude") then "claude-reviewer"
    else "local-default"
  }

  /** `DEFAULT_ENV_PROFILES[name]`. */
  function DefaultProfile(name: string): Option<Fields> {
    if name == "codex-reviewer" then Some([("CODEX_SANDBOX", Str("read-only")), ("CODEX_MODE", Str("full-auto"))])
    else if name == "claude-reviewer" || name == "local-default" then Some([])
    else None
  }

  /** `DEFAULT_ENV_PROFILES[name] ?? {}`. */
  function DefaultFields(name: string): Fields {
    if DefaultProfile(name).Some? then DefaultProfile(name).value else []
  }

  lemma DefaultFieldsDistinct(name: string)
    ensures DistinctKeys(DefaultFields(name))
  {
    var a, b := "CODEX_SANDBOX", "CODEX_MODE";
    assert |a| != |b|;
  }

  // ---------------------------------------------------------------------------
  // Objects and spreads
  // ---------------------------------------------------------------------------

  /** An object's own fields, as `{...v}` copies them for the agents and
      documents the policy reaches (which are objects). */
  function OwnFields(v: Value): Fields {
    if v.Obj? then v.fields else []
  }

  /** What a spread copies from any value: an object's fields, a string's
      characters or an array's elements under their decimal indices, and
      nothing from `undefined`, `null`, booleans and numbers. */
  function SpreadFields(v: Value): Fields {
    if v.Str? then seq(|v.s|, i requires 0 <= i < |v.s| => (NatToString(i), Str([v.s[i]])))
    else if v.Arr? then seq(|v.items|, i requires 0 <= i < |v.items| => (NatToString(i), v.items[i]))
    else OwnFields(v)
  }

  /** The keys of a spread are distinct: index keys are, since decimal
      printing is injective, and an object's are when its own are. */
  lemma SpreadFieldsDistinct(v: Value)
    requires v.Obj? ==> DistinctKeys(v.fields)
    ensures DistinctKeys(SpreadFields(v))
  {
    var fs := SpreadFields(v);
    if v.Str? || v.Arr? {
      forall i, j | 0 <= i < j < |fs| ensures fs[i].0 != fs[j].0 {
        if fs[i].0 == fs[j].0 {
          assert NatToString(i) == NatToString(j);
          IntToStringInjective(i, j);
        }
      }
    }
  }

  /** `o[k] = v`: the first field named `k` takes the value in place, or the
      field is appended. */
  function SetField(fs: Fields, k: string, v: Value): (r: Fields)
    ensures Lookup(r, k) == v
    ensures forall k2 :: k2 != k ==> Lookup(r, k2) == Lookup(fs, k2)
    decreases |fs|
  {
    if |fs| == 0 then [(k, v)]
    else if fs[0].0 == k then [(k, v)] + fs[1..]
    else
      var rest := SetField(fs[1..], k, v);
      LookupCons(fs[0], rest);
      LookupCons(fs[0], fs[1..]);
      assert [fs[0]] + fs[1..] == fs;
      [fs[0]] + rest
  }

  /** Looking a key up in a field list with one more field in front. */
  lemma LookupCons(f: (string, Value), rest: Fields)
    ensures forall k :: Lookup([f] + rest, k) == if f.0 == k then f.1 else Lookup(rest, k)
  {
    assert ([f] + rest)[1..] == rest;
  }

  /** `{...base, ...over}`. */
  function Spread(base: Fields, over: Fields): Fields
    decreases |over|
  {
    if |over| == 0 then base else Spread(SetField(base, over[0].0, over[0].1), over[1..])
  }

  /** A key of the spread object comes from `over` when `over` has it, and
      from `base` otherwise. */
  lemma {:induction false} SpreadLookup(base: Fields, over: Fields, k: string)
    requires DistinctKeys(over)
    ensures Lookup(Spread(base, over), k) == if k in Keys(over) then Lookup(over, k) else Lookup(base, k)
    decreases |over|
  {
    if |over| > 0 {
      var rest := over[1..];
      DistinctTail(over);
      KeysCons(over, k);
      LookupCons(over[0], rest);
      assert [over[0]] + rest == over;
      SpreadLookup(SetField(base, over[0].0, over[0].1), rest, k);
    }
  }

  /** The fields after the first of a list with distinct keys have distinct
      keys, none of them the first field's. */
  lemma DistinctTail(fs: Fields)
    requires |fs| > 0 && DistinctKeys(fs)
    ensures DistinctKeys(fs[1..])
    ensures fs[0].0 !in Keys(fs[1..])
  {
    var rest := fs[1..];
    forall i, j | 0 <= i < j < |rest| ensures rest[i].0 != rest[j].0 {
      assert rest[i] == fs[i + 1] && rest[j] == fs[j + 1];
    }
    forall j | 0 <= j < |rest| ensures Keys(rest)[j] != fs[0].0 {
      assert rest[j] == fs[j + 1];
    }
  }

  /** A key of a non-empty field list is the first field's or one of the rest. */
  lemma KeysCons(fs: Fields, k: string)
    requires |fs| > 0
    ensures k in Keys(fs) <==> k == fs[0].0 || k in Keys(fs[1..])
  {
    assert Keys(fs) == [fs[0].0] + Keys(fs[1..]);
  }

  /** A key the spread's sources lack is absent from the result. */
  lemma AbsentKey(fs: Fields, k: string)
    requires k !in Keys(fs)
    ensures Lookup(fs, k) == Undefined
  {
    LookupAbsent(fs, k);
  }

  // ---------------------------------------------------------------------------
  // resolveEnv
  // ---------------------------------------------------------------------------

  /** `customProfiles?.[name]`. */
  function CustomProfile(custom: Value, name: string): Value {
    Get(custom, name)
  }

  /** `hasEnvProfile`: a built-in profile, or a custom one that is truthy. */
  predicate HasEnvProfile(name: string, custom: Value) {
    DefaultProfile(name).Some? || Truthy(CustomProfile(custom, name))
  }

  /** `String(agent.env_profile ?? defaultEnvProfileFor(agent)).trim()`. */
  function EnvProfileName(agent: Value): string {
    Trim(ToJsString(Coalesce(Get(agent, "env_profile"), Str(DefaultEnvProfileFor(Get(agent, "provider"))))))
  }

  datatype ResolvedEnv = ResolvedEnv(envProfile: string, env: Fields)

  /** `resolveEnv`: the profile's name and the environment built from the
      built-in profile, then the custom profile, then the agent's own `env`. */
  function ResolveEnv(agent: Value, custom: Value): (r: Result<ResolvedEnv, string>)
    ensures r.Success? <==> HasEnvProfile(EnvProfileName(agent), custom)
    ensures r.Success? ==> r.value.envProfile == EnvProfileName(agent)
    ensures r.Failure? ==>
      r.error == "agent " + ToJsString(Get(agent, "id")) + " refers to unknown env_profile: " + EnvProfileName(agent)
  {
    var name := EnvProfileName(agent);
    if !HasEnvProfile(name, custom) then
      Failure("agent " + ToJsString(Get(agent, "id")) + " refers to unknown env_profile: " + name)
    else
      var base := Spread(Spread([], DefaultFields(name)), SpreadFields(CustomProfile(custom, name)));
      Success(ResolvedEnv(name, Spread(base, SpreadFields(Get(agent, "env")))))
  }

  /** Environment precedence: the agent's `env` over the custom profile over
      the built-in profile. */
  lemma EnvPrecedence(agent: Value, custom: Value, k: string)
    requires ResolveEnv(agent, custom).Success?
    requires Get(agent, "env").Obj? ==> DistinctKeys(Get(agent, "env").fields)
    requires CustomProfile(custom, EnvProfileName(agent)).Obj? ==>
               DistinctKeys(CustomProfile(custom, EnvProfileName(agent)).fields)
    ensures var name := EnvProfileName(agent);
      var own := SpreadFields(Get(agent, "env"));
      var profile := SpreadFields(CustomProfile(custom, name));
      Lookup(ResolveEnv(agent, custom).value.env, k) ==
        if k in Keys(own) then Lookup(own, k)
        else if k in Keys(profile) then Lookup(profile, k)
        else Lookup(DefaultFields(name), k)
  {
    var name := EnvProfileName(agent);
    var own := SpreadFields(Get(agent, "env"));
    var profile := SpreadFields(CustomProfile(custom, name));
    SpreadFieldsDistinct(Get(agent, "env"));
    SpreadFieldsDistinct(CustomProfile(custom, name));
    var builtIn := Spread([], DefaultFields(name));
    var base := Spread(builtIn, profile);
    SpreadLookup(base, own, k);
    SpreadLookup(builtIn, profile, k);
    DefaultFieldsDistinct(name);
    SpreadLookup([], DefaultFields(name), k);
    if k !in Keys(DefaultFields(name)) {
      AbsentKey(DefaultFields(name), k);
    }
  }

  /** Without an `env_profile` of its own, an agent takes its provider's
      built-in profile, which always exists. */
  lemma DefaultEnvProfile(agent: Value, custom: Value)
    requires Get(agent, "env_profile") == Undefined || Get(agent, "env_profile") == Null
    ensures EnvProfileName(agent) == DefaultEnvProfileFor(Get(agent, "provider"))
    ensures ResolveEnv(agent, custom).Success?
  {
    var name := DefaultEnvProfileFor(Get(agent, "provider"));
    assert Coalesce(Get(agent, "env_profile"), Str(name)) == Str(name);
    StrToJsString(Str(name));
    DefaultProfileExists(Get(agent, "provider"));
  }

  /** Every provider's default profile is built in, under a trimmed name. */
  lemma DefaultProfileExists(provider: Value)
    ensures DefaultProfile(DefaultEnvProfileFor(provider)).Some?
    ensures Trim(DefaultEnvProfileFor(provider)) == DefaultEnvProfileFor(provider)
  {
    var name := DefaultEnvProfileFor(provider);
    var codex, claude, local := "codex-reviewer", "claude-reviewer", "local-default";
    assert |codex| == 14 && |claude| == 15 && |local| == 13;
    if provider == Str("codex") {
      assert name == codex;
    } else if provider == Str("claude") {
      assert name == claude;
      assert name != codex;
    } else {
      assert name == local;
      assert name != codex;
    }
    TrimmedWord(name);
  }

  // ---------------------------------------------------------------------------
  // unique
  // ---------------------------------------------------------------------------

  /** `String(x ?? "").trim()`. */
  function TrimmedString(v: Value): string {
    Trim(ToJsString(Coalesce(v, Str(""))))
  }

  function TrimmedAll(vs: seq<Value>): (ts: seq<string>)
    ensures |ts| == |vs|
    ensures forall i :: 0 <= i < |vs| ==> ts[i] == TrimmedString(vs[i])
  {
    seq(|vs|, i requires 0 <= i < |vs| => TrimmedString(vs[i]))
  }

  /** `.filter(Boolean)` on strings. */
  function DropEmpty(ts: seq<string>): (r: seq<string>)
    ensures forall x :: x in r <==> x in ts && x != ""
  {
    if |ts| == 0 then []
    else
      var rest := DropEmpty(ts[1..]);
      assert forall x :: x in ts <==> x == ts[0] || x in ts[1..];
      if ts[0] == "" then rest else [ts[0]] + rest
  }

  /** `unique`: the entries as trimmed strings, without empties and repeats,
      each at its first place. */
  function Unique(vs: seq<Value>): (r: seq<string>)
    ensures Distinct(r)
    ensures forall x :: x in r <==> x != "" && x in TrimmedAll(vs)
    ensures forall x :: x in r ==> Trim(x) == x
  {
    TrimmedAllTrimmed(vs);
    Dedup(DropEmpty(TrimmedAll(vs)))
  }

  lemma TrimmedAllTrimmed(vs: seq<Value>)
    ensures forall x :: x in TrimmedAll(vs) ==> Trim(x) == x
  {
    forall x | x in TrimmedAll(vs) ensures Trim(x) == x {
      var i :| 0 <= i < |vs| && TrimmedAll(vs)[i] == x;
      TrimIdempotent(ToJsString(Coalesce(vs[i], Str(""))));
    }
  }

  function StrValues(ss: seq<string>): (vs: seq<Value>)
    ensures |vs| == |ss|
    ensures forall i :: 0 <= i < |ss| ==> vs[i] == Str(ss[i])
  {
    seq(|ss|, i requires 0 <= i < |ss| => Str(ss[i]))
  }

  lemma StrValuesIn(ss: seq<string>, x: string)
    ensures Str(x) in StrValues(ss) <==> x in ss
  {
    if x in ss {
      var i :| 0 <= i < |ss| && ss[i] == x;
      assert StrValues(ss)[i] == Str(x);
    }
  }

  // ---------------------------------------------------------------------------
  // applyAgentDefinitionPolicy
  // ---------------------------------------------------------------------------

  /** A supplied non-empty array, or else the default. */
  function ListOr(v: Value, default: seq<Value>): (r: seq<Value>)
    ensures v.Arr? && |v.items| > 0 ==> r == v.items
    ensures !(v.Arr? && |v.items| > 0) ==> r == default
  {
    if v.Arr? && |v.items| > 0 then v.items else default
  }

  /** The agent's four filled-in fields assigned onto a copy of it. */
  function WithResolved(agent: Value, allowed: seq<string>, template: seq<Value>, re: ResolvedEnv): (r: Value)
    ensures r.Obj?
    ensures Get(r, "allowed_message_types") == Arr(StrValues(allowed))
    ensures Get(r, "command_template") == Arr(template)
    ensures Get(r, "env_profile") == Str(re.envProfile)
    ensures Get(r, "env") == Obj(re.env)
    ensures forall k ::
              k != "allowed_message_types" && k != "command_template" && k != "env_profile" && k != "env" ==>
                Get(r, k) == Get(agent, k)
  {
    var f1 := SetField(OwnFields(agent), "allowed_message_types", Arr(StrValues(allowed)));
    var f2 := SetField(f1, "command_template", Arr(template));
    var f3 := SetField(f2, "env_profile", Str(re.envProfile));
    Obj(SetField(f3, "env", Obj(re.env)))
  }

  /** The body of the `agents.map(...)` callback. */
  function CheckAgent(custom: Value, agent: Value, index: nat): Result<Value, string> {
    var id := Get(agent, "id");
    var role := Get(agent, "role");
    var provider := Get(agent, "provider");
    if !Truthy(id) then Failure(MissingId(index))
    else if !Truthy(role) || RoleAllowed(ToJsString(role)).None? then Failure(UnsupportedRole(id, role))
    else if !KnownProvider(provider) then Failure(UnsupportedProvider(id, provider))
    else
      match ResolveEnv(agent, custom)
      case Failure(e) => Failure(e)
      case Success(re) =>
        Success(WithResolved(agent, AllowedOf(agent, RoleAllowed(ToJsString(role)).value), TemplateOf(agent), re))
  }

  function MissingId(index: nat): string {
    "agent at index=" + NatToString(index) + " is missing id"
  }

  function UnsupportedRole(id: Value, role: Value): string {
    "agent " + ToJsString(id) + " has unsupported role: " + ToJsString(Coalesce(role, Str("")))
  }

  function UnsupportedProvider(id: Value, provider: Value): string {
    "agent " + ToJsString(id) + " has unsupported provider: " + ToJsString(Coalesce(provider, Str("")))
  }

  /** The agent's own non-empty allow-list, else its role's, de-duplicated. */
  function AllowedOf(agent: Value, roleTypes: seq<string>): seq<string> {
    Unique(ListOr(Get(agent, "allowed_message_types"), StrValues(roleTypes)))
  }

  /** The agent's own non-empty command template, else the default. */
  function TemplateOf(agent: Value): seq<Value> {
    ListOr(Get(agent, "command_template"),
           StrValues(DefaultCommandTemplateFor(Get(agent, "provider"), Get(agent, "role"))))
  }

  /** An agent passes when it has a truthy id, a known role, a supported
      provider and an environment profile that exists; the checks run in that
      order and the first that fails gives the message. A passing agent keeps
      its other fields and gains the de-duplicated allow-list (its own
      non-empty list, else its role's), its own non-empty command template or
      the default, and the resolved environment. */
  lemma CheckAgentMeaning(custom: Value, agent: Value, index: nat)
    ensures var id := Get(agent, "id");
      var role := Get(agent, "role");
      var provider := Get(agent, "provider");
      var r := CheckAgent(custom, agent, index);
      && (r.Success? <==>
            Truthy(id) && Truthy(role) && ToJsString(role) in Roles && KnownProvider(provider)
            && HasEnvProfile(EnvProfileName(agent), custom))
      && (!Truthy(id) ==> r == Failure("agent at index=" + NatToString(index) + " is missing id"))
      && (Truthy(id) && !(Truthy(role) && ToJsString(role) in Roles) ==>
            r == Failure("agent " + ToJsString(id) + " has unsupported role: " + ToJsString(Coalesce(role, Str("")))))
      && (Truthy(id) && Truthy(role) && ToJsString(role) in Roles && !KnownProvider(provider) ==>
            r == Failure("agent " + ToJsString(id) + " has unsupported provider: "
                         + ToJsString(Coalesce(provider, Str("")))))
      && (r.Success? ==>
            && Get(r.value, "allowed_message_types")
               == Arr(StrValues(Unique(ListOr(Get(agent, "allowed_message_types"),
                                              StrValues(RoleAllowed(ToJsString(role)).value)))))
            && Get(r.value, "command_template")
               == Arr(ListOr(Get(agent, "command_template"), StrValues(DefaultCommandTemplateFor(provider, role))))
            && Get(r.value, "env_profile") == Str(EnvProfileName(agent))
            && Get(r.value, "env") == Obj(ResolveEnv(agent, custom).value.env)
            && (forall k :: k != "allowed_message_types" && k != "command_template" && k != "env_profile" && k != "env"
                  ==> Get(r.value, k) == Get(agent, k)))
  {
  }

  /** The message for a document whose `agents` is missing or empty. */
  const EmptyAgents := "agent definition document must have non-empty agents"

  /** The `agents.map(...)`: the first agent that fails aborts it. */
  function Checker(custom: Value): (Value, nat) -> Result<Value, string> {
    (agent: Value, index: nat) => CheckAgent(custom, agent, index)
  }

  /** The checked agents of a document, or the first error. */
  function ResolveAgents(doc: Value): Result<seq<Value>, string> {
    var agents := Get(doc, "agents");
    if !agents.Arr? || |agents.items| == 0 then Failure(EmptyAgents)
    else AgentAdapter.MapOrFail(agents.items, 0, Checker(Get(doc, "env_profiles")))
  }

  /** `applyAgentDefinitionPolicy`: the document with its checked agents. */
  function ApplyAgentDefinitionPolicy(doc: Value): (r: Result<Value, string>)
    ensures r.Success? <==> ResolveAgents(doc).Success?
    ensures r.Failure? ==> r.error == ResolveAgents(doc).error
    ensures r.Success? ==> Get(r.value, "agents") == Arr(ResolveAgents(doc).value)
    ensures r.Success? ==> forall k :: k != "agents" ==> Get(r.value, k) == Get(doc, k)
  {
    match ResolveAgents(doc)
    case Failure(e) => Failure(e)
    case Success(agents) => Success(Obj(SetField(OwnFields(doc), "agents", Arr(agents))))
  }

  /** The document is accepted exactly when `agents` is a non-empty array
      whose every entry passes; the checked agents are then in the order of
      the entries. Otherwise the error is the empty-list message or that of
      the first failing agent. */
  lemma ResolveAgentsMeaning(doc: Value)
    ensures var agents := Get(doc, "agents");
      var custom := Get(doc, "env_profiles");
      var r := ResolveAgents(doc);
      && (r.Success? <==>
            agents.Arr? && |agents.items| > 0
            && forall i :: 0 <= i < |agents.items| ==> CheckAgent(custom, agents.items[i], i).Success?)
      && (!(agents.Arr? && |agents.items| > 0) ==> r == Failure(EmptyAgents))
      && (r.Success? ==>
            && |r.value| == |agents.items|
            && forall i :: 0 <= i < |agents.items| ==> r.value[i] == CheckAgent(custom, agents.items[i], i).value)
      && (r.Failure? && agents.Arr? && |agents.items| > 0 ==>
            exists i :: && 0 <= i < |agents.items|
                        && (forall j :: 0 <= j < i ==> CheckAgent(custom, agents.items[j], j).Success?)
                        && Failure(r.error) == CheckAgent(custom, agents.items[i], i))
  {
    var agents := Get(doc, "agents");
    if agents.Arr? && |agents.items| > 0 {
      var f := Checker(Get(doc, "env_profiles"));
      AgentAdapter.MapOrFailMeaning(agents.items, 0, f);
      CheckerApplies(Get(doc, "env_profiles"));
    }
  }

  lemma CheckerApplies(custom: Value)
    ensures forall a, i :: Checker(custom)(a, i) == CheckAgent(custom, a, i)
  {
  }

  // ---------------------------------------------------------------------------
  // buildRuntimeAgentConfigFromDefinitions
  // ---------------------------------------------------------------------------

  /** The filter of reviewer candidates: neither aggregator nor orchestrator,
      and `review_result` among the allowed types. */
  predicate ReviewerCandidate(agent: Value) {
    var role := Get(agent, "role");
    var allowed := Get(agent, "allowed_message_types");
    role != Str("aggregator") && role != Str("orchestrator") && allowed.Arr? && Str("review_result") in allowed.items
  }

  /** `agents.filter(...)`, in order. */
  function Candidates(agents: seq<Value>): (r: seq<Value>)
    ensures forall a :: a in r <==> a in agents && ReviewerCandidate(a)
    ensures |r| <= |agents|
  {
    if |agents| == 0 then []
    else
      var rest := Candidates(agents[1..]);
      assert forall a :: a in agents <==> a == agents[0] || a in agents[1..];
      if ReviewerCandidate(agents[0]) then [agents[0]] + rest else rest
  }

  /** The reviewer profile handed to `buildRuntimeAgentConfig`. */
  function ReviewerObject(agent: Value): Value {
    Obj([("id", Get(agent, "id")),
         ("provider", Get(agent, "provider")),
         ("model", Get(agent, "model")),
         ("instruction", Get(agent, "instruction")),
         ("display_name", Get(agent, "name")),
         ("prompt_file", Get(agent, "prompt_file")),
         ("command_template", Get(agent, "command_template")),
         ("env_profile", Get(agent, "env_profile")),
         ("env", Get(agent, "env"))])
  }

  lemma ReviewerObjectGets(agent: Value)
    ensures Get(ReviewerObject(agent), "id") == Get(agent, "id")
    ensures Get(ReviewerObject(agent), "provider") == Get(agent, "provider")
  {
    var fs := ReviewerObject(agent).fields;
    assert fs[0].0 == "id" && fs[1].0 == "provider";
    assert |fs[0].0| != |"provider"|;
    LookupFirst(fs, 0, "id");
    LookupFirst(fs, 1, "provider");
  }

  /** The body of the `reviewerCandidates.map(...)` callback. */
  function ReviewerItem(agent: Value, index: nat): (r: Result<Value, string>)
    ensures r.Success? <==> Get(agent, "provider") == Str("codex") || Get(agent, "provider") == Str("claude")
    ensures r.Success? ==> r.value == ReviewerObject(agent)
  {
    var provider := Get(agent, "provider");
    if provider != Str("codex") && provider != Str("claude") then Failure(ReviewerProviderError(agent))
    else Success(ReviewerObject(agent))
  }

  function ReviewerProviderError(agent: Value): string {
    "agent " + ToJsString(Get(agent, "id")) + " has reviewer-capable role (" + ToJsString(Get(agent, "role"))
    + ") but unsupported reviewer provider: " + ToJsString(Get(agent, "provider"))
  }

  function ReviewerMapper(): (Value, nat) -> Result<Value, string> {
    (agent: Value, index: nat) => ReviewerItem(agent, index)
  }

  /** The reviewer entries of the candidates, or the first error. */
  function ReviewerItems(candidates: seq<Value>): Result<seq<Value>, string> {
    AgentAdapter.MapOrFail(candidates, 0, ReviewerMapper())
  }

  /** The reviewer entries exist exactly when every candidate's provider is
      `codex` or `claude`; they are then one per candidate, in order. */
  lemma ReviewerItemsMeaning(candidates: seq<Value>)
    ensures var r := ReviewerItems(candidates);
      && (r.Success? <==>
            forall i :: 0 <= i < |candidates| ==>
              Get(candidates[i], "provider") == Str("codex") || Get(candidates[i], "provider") == Str("claude"))
      && (r.Success? ==>
            |r.value| == |candidates| && forall i :: 0 <= i < |candidates| ==> r.value[i] == ReviewerObject(candidates[i]))
  {
    var f := ReviewerMapper();
    AgentAdapter.MapOrFailWhole(candidates, f);
    forall i | 0 <= i < |candidates| ensures f(candidates[i], i) == ReviewerItem(candidates[i], i) {
      ReviewerMapperApplies();
    }
  }

  lemma ReviewerMapperApplies()
    ensures forall a, i :: ReviewerMapper()(a, i) == ReviewerItem(a, i)
  {
  }

  /** `agents.find((agent) => agent.role === role)`. */
  function FirstWithRole(agents: seq<Value>, role: string): (r: Option<nat>)
    ensures r.Some? ==> r.value < |agents| && Get(agents[r.value], "role") == Str(role)
    ensures r.Some? ==> forall j :: 0 <= j < r.value ==> Get(agents[j], "role") != Str(role)
    ensures r.None? ==> forall j :: 0 <= j < |agents| ==> Get(agents[j], "role") != Str(role)
    decreases |agents|
  {
    if |agents| == 0 then None
    else if Get(agents[0], "role") == Str(role) then Some(0)
    else
      var rest := FirstWithRole(agents[1..], role);
      if rest.Some? then Some(rest.value + 1) else None
  }

  /** `found?.id ?? fallback`. */
  function IdOrDefault(agents: seq<Value>, found: Option<nat>, fallback: string): Value
    requires found.Some? ==> found.value < |agents|
  {
    if found.Some? then Coalesce(Get(agents[found.value], "id"), Str(fallback)) else Str(fallback)
  }

  /** The options handed to `buildRuntimeAgentConfig`. */
  function OptionsFor(agents: seq<Value>, items: seq<Value>): AgentAdapter.AdapterOptions {
    AgentAdapter.AdapterOptions(IdOrDefault(agents, FirstWithRole(agents, "orchestrator"), "orchestrator"),
                                IdOrDefault(agents, FirstWithRole(agents, "aggregator"), "aggregator"),
                                Arr(items), None, None)
  }

  /** `buildRuntimeAgentConfigFromDefinitions`: the runtime configuration and
      the resolved document. */
  function BuildRuntimeAgentConfigFromDefinitions(doc: Value)
    : (r: Result<(AgentAdapter.RuntimeAgentConfig, Value), string>)
    ensures ApplyAgentDefinitionPolicy(doc).Failure? ==> r == Failure(ApplyAgentDefinitionPolicy(doc).error)
    ensures r.Success? ==> r.value.1 == ApplyAgentDefinitionPolicy(doc).value
  {
    match ResolveAgents(doc)
    case Failure(e) => Failure(e)
    case Success(agents) =>
      match ReviewerItems(Candidates(agents))
      case Failure(e) => Failure(e)
      case Success(items) =>
        match AgentAdapter.RuntimeAgentConfigOf(OptionsFor(agents, items))
        case Failure(e) => Failure(e)
        case Success(c) => Success((c, ApplyAgentDefinitionPolicy(doc).value))
  }

  /** A reviewer-capable agent whose provider is `local` makes the build fail. */
  lemma LocalReviewerFails(doc: Value, i: nat)
    requires ResolveAgents(doc).Success?
    requires i < |ResolveAgents(doc).value|
    requires ReviewerCandidate(ResolveAgents(doc).value[i])
    requires Get(ResolveAgents(doc).value[i], "provider") == Str("local")
    ensures BuildRuntimeAgentConfigFromDefinitions(doc).Failure?
  {
    var agents := ResolveAgents(doc).value;
    var cands := Candidates(agents);
    assert agents[i] in cands;
    var j :| 0 <= j < |cands| && cands[j] == agents[i];
    var p := Get(cands[j], "provider");
    assert p.s[0] == 'l';
    assert p != Str("codex") && p != Str("claude");
    ReviewerItemsMeaning(cands);
    assert ReviewerItems(cands).Failure?;
  }

  /** With reviewer-capable agents, the runtime's reviewers are exactly those
      agents, in order, with their ids trimmed. */
  lemma BuildReviewers(doc: Value)
    requires BuildRuntimeAgentConfigFromDefinitions(doc).Success?
    requires |Candidates(ResolveAgents(doc).value)| > 0
    ensures var cands := Candidates(ResolveAgents(doc).value);
      var c := BuildRuntimeAgentConfigFromDefinitions(doc).value.0;
      && |c.reviewers| == |cands|
      && forall i :: 0 <= i < |cands| ==> c.reviewers[i].id == TrimmedString(Get(cands[i], "id"))
  {
    var agents := ResolveAgents(doc).value;
    var cands := Candidates(agents);
    ReviewerItemsMeaning(cands);
    var items := ReviewerItems(cands).value;
    var o := OptionsFor(agents, items);
    AgentAdapter.BuildMeaning(o);
    assert AgentAdapter.ReviewerInput(o) == items;
    var c := AgentAdapter.RuntimeAgentConfigOf(o).value;
    forall i | 0 <= i < |cands| ensures c.reviewers[i].id == TrimmedString(Get(cands[i], "id")) {
      ReviewerObjectGets(cands[i]);
      assert AgentAdapter.Ids(c.reviewers)[i] == AgentAdapter.ItemId(items[i]);
    }
  }

  /** Without reviewer-capable agents the runtime falls back to its default
      reviewers `codex` and `claude`. */
  lemma BuildDefaultReviewers(doc: Value)
    requires BuildRuntimeAgentConfigFromDefinitions(doc).Success?
    requires |Candidates(ResolveAgents(doc).value)| == 0
    ensures AgentAdapter.Ids(BuildRuntimeAgentConfigFromDefinitions(doc).value.0.reviewers) == ["codex", "claude"]
  {
    var agents := ResolveAgents(doc).value;
    var cands := Candidates(agents);
    ReviewerItemsMeaning(cands);
    var items := ReviewerItems(cands).value;
    assert |items| == 0;
    var o := OptionsFor(agents, items);
    var input := AgentAdapter.ReviewerInput(o);
    assert input == AgentAdapter.DefaultReviewerItems(None, None);
    AgentAdapter.DefaultItemsFacts(None, None);
    AgentAdapter.TwoIds(AgentAdapter.ItemIds(input), "codex", "claude");
    AgentAdapter.BuildMeaning(o);
    assert BuildRuntimeAgentConfigFromDefinitions(doc).value.0 == AgentAdapter.RuntimeAgentConfigOf(o).value;
  }

  /** The orchestrator and aggregator ids come from the first agents with
      those roles, or are the defaults. */
  lemma BuildPrincipals(doc: Value)
    requires BuildRuntimeAgentConfigFromDefinitions(doc).Success?
    ensures var agents := ResolveAgents(doc).value;
      var c := BuildRuntimeAgentConfigFromDefinitions(doc).value.0;
      && c.orchestratorId == AgentAdapter.IdOr(IdOrDefault(agents, FirstWithRole(agents, "orchestrator"), "orchestrator"),
                                              "orchestrator")
      && c.aggregatorId == AgentAdapter.IdOr(IdOrDefault(agents, FirstWithRole(agents, "aggregator"), "aggregator"),
                                            "aggregator")
  {
    var agents := ResolveAgents(doc).value;
    AgentAdapter.BuildMeaning(OptionsFor(agents, ReviewerItems(Candidates(agents)).value));
  }

  /** A checked worker agent (the `architect` included) without an allow-list
      of its own may review. */
  lemma WorkerIsCandidate(custom: Value, agent: Value, index: nat)
    requires CheckAgent(custom, agent, index).Success?
    requires Get(agent, "role").Str? && WorkerRole(Get(agent, "role").s)
    requires !(Get(agent, "allowed_message_types").Arr? && |Get(agent, "allowed_message_types").items| > 0)
    ensures ReviewerCandidate(CheckAgent(custom, agent, index).value)
  {
    var role := Get(agent, "role");
    CheckAgentValue(custom, agent, index);
    WorkerNotPrincipal(role.s);
    StrToJsString(role);
    var re := ResolveEnv(agent, custom).value;
    var allowed := AllowedOf(agent, WorkerTypes);
    WorkerDefaultsReview();
    AllowedDefault(agent, WorkerTypes);
    CandidateOfResolved(agent, allowed, TemplateOf(agent), re);
  }

  /** A passing agent is the agent with its four fields filled in. */
  lemma CheckAgentValue(custom: Value, agent: Value, index: nat)
    requires CheckAgent(custom, agent, index).Success?
    ensures RoleAllowed(ToJsString(Get(agent, "role"))).Some?
    ensures ResolveEnv(agent, custom).Success?
    ensures CheckAgent(custom, agent, index).value
         == WithResolved(agent, AllowedOf(agent, RoleAllowed(ToJsString(Get(agent, "role"))).value),
                         TemplateOf(agent), ResolveEnv(agent, custom).value)
  {
    var id := Get(agent, "id");
    var role := Get(agent, "role");
    assert Truthy(id);
    assert Truthy(role) && RoleAllowed(ToJsString(role)).Some?;
    assert KnownProvider(Get(agent, "provider"));
    assert ResolveEnv(agent, custom).Success?;
  }

  lemma StrToJsString(v: Value)
    requires v.Str?
    ensures ToJsString(v) == v.s
  {
  }

  lemma AllowedDefault(agent: Value, roleTypes: seq<string>)
    requires !(Get(agent, "allowed_message_types").Arr? && |Get(agent, "allowed_message_types").items| > 0)
    ensures AllowedOf(agent, roleTypes) == Unique(StrValues(roleTypes))
  {
  }

  /** Filling in the four fields keeps the role, so an agent that is no
      principal and has `review_result` in its final allow-list may review. */
  lemma CandidateOfResolved(agent: Value, allowed: seq<string>, template: seq<Value>, re: ResolvedEnv)
    requires Get(agent, "role") != Str("aggregator") && Get(agent, "role") != Str("orchestrator")
    requires "review_result" in allowed
    ensures ReviewerCandidate(WithResolved(agent, allowed, template, re))
  {
    var r := WithResolved(agent, allowed, template, re);
    assert Get(r, "role") == Get(agent, "role");
    StrValuesIn(allowed, "review_result");
  }

  lemma WorkerNotPrincipal(role: string)
    requires WorkerRole(role)
    ensures role != "aggregator" && role != "orchestrator"
    ensures RoleAllowed(role) == Some(WorkerTypes)
  {
  }

  /** The worker roles' default allow-list keeps `review_result`. */
  lemma WorkerDefaultsReview()
    ensures "review_result" in Unique(StrValues(WorkerTypes))
  {
    var types := WorkerTypes;
    var word := types[1];
    assert |word| == 13;
    TrimmedWord(word);
    UniqueKeepsString(types, 1);
  }

  /** A trimmed non-empty entry of a string list survives `unique`. */
  lemma UniqueKeepsString(types: seq<string>, i: nat)
    requires i < |types| && types[i] != "" && Trim(types[i]) == types[i]
    ensures types[i] in Unique(StrValues(types))
  {
    UniqueKeeps(StrValues(types), i, types[i]);
  }

  /** A trimmed non-empty string entry survives `unique`. */
  lemma UniqueKeeps(vs: seq<Value>, i: nat, word: string)
    requires i < |vs| && vs[i] == Str(word) && word != "" && Trim(word) == word
    ensures word in Unique(vs)
  {
    assert Coalesce(vs[i], Str("")) == Str(word);
    assert ToJsString(Str(word)) == word;
    assert TrimmedString(vs[i]) == word;
    assert TrimmedAll(vs)[i] == word;
  }
}
