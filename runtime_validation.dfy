/** The validation the runtime itself runs on every consumed message: the same
    check chain as the envelope policy, with the allow-lists of its four fixed
    principals written into the code and aggregation results routed to
    `orchestrator`. */
module RuntimeValidation {
  import opened JsonValue
  import opened EnvelopePolicy
  import AgentAdapter

  /** The runtime's principals, in the order the source lists them. */
  const Principals: seq<string> := ["orchestrator", "codex", "claude", "aggregator"]

  /** `senderAllowedByType`: who may send each message type. */
  function SenderAllowedByType(msgType: string, senderId: string): bool {
    if msgType == "task_assignment" then senderId == "orchestrator"
    else if msgType == "review_result" then senderId == "codex" || senderId == "claude"
    else if msgType == "aggregation_result" then senderId == "aggregator"
    else if msgType == "control" then senderId == "orchestrator"
    else if msgType == "error" then senderId in Principals
    else false
  }

  /** The runtime's `validateEnvelope`: the first failing check decides. */
  function ValidateEnvelope(hash: Hash, e: Envelope, requireTaskIdMatch: bool, taskIdMatchTypes: seq<string>)
    : (r: Validation)
    ensures r == Valid <==>
      && SenderConsistent(e) && SenderAllowedByType(e.msgType, e.senderId)
      && RouteAllowed("orchestrator", e) && SignatureValid(hash, e)
      && TaskIdConsistent(requireTaskIdMatch, taskIdMatchTypes, e)
  {
    if e.from != e.senderId then
      Invalid("SENDER_ID_MISMATCH", "from must equal sender_id")
    else if !SenderAllowedByType(e.msgType, e.senderId) then
      Invalid("ACL_DENY", "sender " + e.senderId + " cannot publish " + e.msgType)
    else if e.msgType == "aggregation_result" && e.to != "orchestrator" then
      Invalid("INVALID_ROUTE", "aggregation_result must target orchestrator")
    else if e.signature != SignatureFor(hash, e) then
      Invalid("SIGNATURE_INVALID", "signature verification failed")
    else if requireTaskIdMatch && e.msgType in taskIdMatchTypes && Get(e.payload, "task_id") != Str(e.taskId) then
      Invalid("TASK_ID_MISMATCH", "envelope.task_id must equal payload.task_id")
    else
      Valid
  }

  /** A configuration with the default principals: `orchestrator`,
      `aggregator` and the reviewers `codex` then `claude`. */
  predicate DefaultPrincipals(c: AgentAdapter.RuntimeAgentConfig) {
    && c.orchestratorId == "orchestrator" && c.aggregatorId == "aggregator"
    && AgentAdapter.Ids(c.reviewers) == ["codex", "claude"]
  }

  /** The hard-coded allow-lists are exactly those `buildAcl` derives from the
      default principals. */
  lemma SenderAllowedIsBuiltAcl(c: AgentAdapter.RuntimeAgentConfig, msgType: string, senderId: string)
    requires DefaultPrincipals(c)
    ensures SenderAllowedByType(msgType, senderId) <==> senderId in AllowedSenders(AgentAdapter.BuildAcl(c), msgType)
  {
    var acl := AgentAdapter.BuildAcl(c);
    if msgType == "error" {
      assert senderId in acl.error <==> senderId in Principals;
    }
  }

  /** The configuration built without any options has the default principals,
      so its allow-lists are the hard-coded ones. */
  lemma DefaultConfigAcl(o: AgentAdapter.AdapterOptions, msgType: string, senderId: string)
    requires o.orchestratorId == Undefined && o.aggregatorId == Undefined && o.reviewers == Undefined
    ensures AgentAdapter.RuntimeAgentConfigOf(o).Success?
    ensures SenderAllowedByType(msgType, senderId) <==>
      senderId in AllowedSenders(AgentAdapter.BuildAcl(AgentAdapter.RuntimeAgentConfigOf(o).value), msgType)
  {
    AgentAdapter.DefaultConfig(o);
    var c := AgentAdapter.RuntimeAgentConfigOf(o).value;
    assert AgentAdapter.ProviderName(AgentAdapter.Codex) == "codex";
    assert AgentAdapter.ProviderName(AgentAdapter.Claude) == "claude";
    SenderAllowedIsBuiltAcl(c, msgType, senderId);
  }

  /** The runtime's check agrees, code and message alike, with the policy
      check given the allow-lists of the default principals and the
      orchestrator as the aggregation target. */
  lemma ValidateEnvelopeIsPolicy(hash: Hash, e: Envelope, requireTaskIdMatch: bool, taskIdMatchTypes: seq<string>,
                                 c: AgentAdapter.RuntimeAgentConfig)
    requires DefaultPrincipals(c)
    ensures ValidateEnvelope(hash, e, requireTaskIdMatch, taskIdMatchTypes)
         == Validate(hash, e, Options(requireTaskIdMatch, taskIdMatchTypes, AgentAdapter.BuildAcl(c), "orchestrator"))
  {
    SenderAllowedIsBuiltAcl(c, e.msgType, e.senderId);
  }
}
