/** The proof-of-concept runtime: two reviewers, an aggregator and an
    orchestrator drain their inboxes in a fixed order. Every consumed message
    passes the validation gate, then the receipt gate; only a first-seen
    message of the type an agent expects makes it act. The clock, the UUID
    source, the hash and the reviewer CLI are inputs, read at the ticks of a
    counter the runtime advances. */
module PocRuntime {
  import opened Wrappers
  import opened Text
  import opened JsonValue
  import opened StringOrder
  import opened EnvelopePolicy
  import opened FileMailbox
  import opened FileStateStore
  import opened ReviewPayloads
  import RuntimeValidation
  import AgentAdapter

  // ---------------------------------------------------------------------------
  // Inputs and configuration
  // ---------------------------------------------------------------------------

  /** What the runtime takes from outside: the hash behind signatures, the ISO
      clock, the millisecond clock, the UUID source and the reviewer CLI. */
  datatype Env = Env(hash: Hash, iso: nat -> string, ms: nat -> nat, uuid: nat -> string,
                     cli: (string, Envelope) -> CliOutcome)

  /** `crypto.randomUUID()` never returns the empty string. */
  ghost predicate UuidsNonEmpty(env: Env) {
    forall t: nat :: env.uuid(t) != ""
  }

  datatype ReviewerMode = Deterministic | Cli

  /** The settings the loop reads. */
  datatype Config = Config(requiredAgents: seq<string>, requireTaskIdMatch: bool, taskIdMatchTypes: seq<string>,
                           mode: ReviewerMode, codexModel: Option<string>, claudeModel: Option<string>)

  /** The constructor options that matter to the loop; `None` is an absent option. */
  datatype RuntimeOptions = RuntimeOptions(
    requiredAgents: Option<seq<string>>,
    requireTaskIdMatch: Option<bool>,
    taskIdMatchTypes: Option<seq<string>>,
    reviewerMode: Option<ReviewerMode>,
    codexModel: Option<string>,
    claudeModel: Option<string>)

  const Reviewers: seq<string> := ["codex", "claude"]
  const Agents: seq<string> := ["codex", "claude", "aggregator", "orchestrator"]
  const ConsumeLimit: int := 100

  /** The constructor's defaults: both reviewers are required, the task id is
      checked on reviews and aggregations, reviewers are deterministic, and a
      model hint is kept only when it is not blank (trimmed). */
  function ConfigOf(o: RuntimeOptions): (c: Config)
    ensures o.requiredAgents.None? ==> c.requiredAgents == Reviewers
    ensures o.requireTaskIdMatch.None? ==> c.requireTaskIdMatch
    ensures o.taskIdMatchTypes.None? ==> c.taskIdMatchTypes == ["review_result", "aggregation_result"]
    ensures o.reviewerMode.None? ==> c.mode == Deterministic
    ensures c.codexModel.Some? ==> o.codexModel.Some? && c.codexModel.value != ""
    ensures c.claudeModel.Some? ==> o.claudeModel.Some? && c.claudeModel.value != ""
  {
    Config(o.requiredAgents.GetOr(Reviewers),
           o.requireTaskIdMatch.GetOr(true),
           o.taskIdMatchTypes.GetOr(["review_result", "aggregation_result"]),
           o.reviewerMode.GetOr(Deterministic),
           AgentAdapter.TrimmedModel(o.codexModel),
           AgentAdapter.TrimmedModel(o.claudeModel))
  }

  /** `reviewerModelById[reviewerId]`. */
  function HintFor(cfg: Config, reviewerId: string): Option<string> {
    if reviewerId == "codex" then cfg.codexModel
    else if reviewerId == "claude" then cfg.claudeModel
    else None
  }

  /** The state of the whole system: the mailbox directories, the store and
      the next tick of the input counter. */
  datatype World = World(boxes: Boxes, store: StoreState, tick: nat)

  /** `init` creates every agent's three directories, empty. */
  function FreshBoxes(agents: seq<string>): Boxes {
    Boxes(map a | a in agents :: [], map a | a in agents :: [], map a | a in agents :: [])
  }

  // ---------------------------------------------------------------------------
  // Building and publishing envelopes
  // ---------------------------------------------------------------------------

  /** `if (input.parentId)`: an empty parent id is not set. */
  function ParentOf(parentId: Option<string>): (r: Option<string>)
    ensures r.Some? <==> parentId.Some? && parentId.value != ""
    ensures r.Some? ==> r == parentId
  {
    if parentId.Some? && parentId.value != "" then parentId else None
  }

  /** `createEnvelope`: reads the clock, then two UUIDs (message id, nonce),
      and signs the content. */
  function CreateEnvelope(env: Env, t: nat, taskId: string, senderId: string, to: string, msgType: string,
                          payload: Value, stateVersion: int, parentId: Option<string>): (r: (Envelope, nat))
    ensures r.1 == t + 3
    ensures r.0.msgId == env.uuid(t + 1) && r.0.taskId == taskId && r.0.senderId == senderId
    ensures r.0.to == to && r.0.msgType == msgType && r.0.payload == payload
    ensures r.0.stateVersion == stateVersion && r.0.parentId == ParentOf(parentId)
  {
    var createdAt := env.iso(t);
    var e := Envelope(env.uuid(t + 1), 1, taskId, senderId, senderId + "-instance-1", "k-" + senderId + "-v1",
                      createdAt, env.uuid(t + 2), "", senderId, to, msgType, stateVersion, 1, createdAt, payload,
                      ParentOf(parentId));
    (Sign(env.hash, e), t + 3)
  }

  /** What `createEnvelope` builds carries its own signature and names its
      sender in both sender fields. */
  lemma CreatedSigned(env: Env, t: nat, taskId: string, senderId: string, to: string, msgType: string,
                      payload: Value, stateVersion: int, parentId: Option<string>)
    ensures var e := CreateEnvelope(env, t, taskId, senderId, to, msgType, payload, stateVersion, parentId).0;
      SignatureValid(env.hash, e) && SenderConsistent(e)
  {
  }

  /** `mailbox.publish`: reads the millisecond clock, then a UUID, for the file name. */
  function Publish(env: Env, w: World, e: Envelope): World {
    World(PublishBoxes(w.boxes, e, env.ms(w.tick), env.uuid(w.tick + 1)), w.store, w.tick + 2)
  }

  /** Publishes an envelope built from tick `w.tick` on, given with the tick
      after its construction. */
  function PublishBuilt(env: Env, w: World, built: (Envelope, nat)): World {
    Publish(env, w.(tick := built.1), built.0)
  }

  // ---------------------------------------------------------------------------
  // The gates every consumed message passes
  // ---------------------------------------------------------------------------

  /** The agents of the loop, each with the one message type it acts on. */
  datatype Role = ReviewerRole(id: string) | AggregatorRole | OrchestratorRole

  function AgentOf(role: Role): string {
    match role
    case ReviewerRole(id) => id
    case AggregatorRole => "aggregator"
    case OrchestratorRole => "orchestrator"
  }

  function Expected(role: Role): string {
    match role
    case ReviewerRole(_) => "task_assignment"
    case AggregatorRole => "review_result"
    case OrchestratorRole => "aggregation_result"
  }

  function Check(cfg: Config, env: Env, e: Envelope): Validation {
    RuntimeValidation.ValidateEnvelope(env.hash, e, cfg.requireTaskIdMatch, cfg.taskIdMatchTypes)
  }

  /** The quarantine row of a rejected message. */
  function RejectionOf(e: Envelope, v: Validation): Rejection
    requires v.Invalid?
  {
    Rejection(e.taskId, e.senderId, e.msgId, e.msgType, v.code, v.message)
  }

  /** `handleInvalid`: a quarantine row stamped at the first clock reading, then
      a nack whose deadletter wrapper is stamped at the second. */
  function HandleInvalid(env: Env, w: World, item: Consumed, v: Validation): World
    requires v.Invalid?
    requires Has(DirOf(w.boxes.inbox, item.agentId), item.name)
  {
    var s1 := AppendQuarantineState(w.store, RejectionOf(item.envelope, v), env.iso(w.tick));
    World(NackBoxes(w.boxes, item, v.code, env.iso(w.tick + 1)), s1, w.tick + 2)
  }

  /** Where a consumed message goes after the two gates. */
  datatype Gate = Rejected(next: World) | Seen(next: World) | Fresh(next: World)

  /** The validation gate, then the receipt gate (the clock is read only when
      the receipt is new) and the ack: only a first-seen message of the
      expected type goes on. */
  function Admit(cfg: Config, env: Env, w: World, item: Consumed, expected: string): Gate
    requires Has(DirOf(w.boxes.inbox, item.agentId), item.name)
  {
    var e := item.envelope;
    var v := Check(cfg, env, e);
    if v.Invalid? then Rejected(HandleInvalid(env, w, item, v))
    else
      var ins := InsertReceiptState(w.store, e.taskId, e.senderId, e.msgId, e.msgType, env.iso(w.tick));
      var w1 := World(AckBoxes(w.boxes, item), ins.0, if ins.1 then w.tick + 1 else w.tick);
      if ins.1 && e.msgType == expected then Fresh(w1) else Seen(w1)
  }

  // ---------------------------------------------------------------------------
  // What each agent does with a first-seen message
  // ---------------------------------------------------------------------------

  /** The artifact reference of a CLI run that threw something other than a
      classified failure. */
  function CrashRef(taskId: string, reviewerId: string, ms: nat): string {
    "artifact://" + taskId + "/" + reviewerId + "/execution-error/" + NatToString(ms)
  }

  /** The review a reviewer writes for an assignment, and the next tick. */
  function ReviewPayloadFor(cfg: Config, env: Env, reviewerId: string, e: Envelope, t: nat): (r: (Value, nat))
    ensures t <= r.1
  {
    var hint := HintFor(cfg, reviewerId);
    match cfg.mode
    case Deterministic =>
      (DeterministicReview(reviewerId, e.taskId, InstructionOf(e.payload), hint, env.iso(t), env.ms(t + 1)), t + 2)
    case Cli =>
      match env.cli(reviewerId, e)
      case CliPayload(p, ref) =>
        (NormalizeReviewPayload(reviewerId, e.taskId, p, ref, hint, env.iso(t)), if NeedsClock(p) then t + 1 else t)
      case CliFailure(message, ref) =>
        (CliFailureReview(reviewerId, e.taskId, Classify(message), "Error: " + message, ref, hint, env.iso(t)), t + 1)
      case CliCrash(text) =>
        (CliFailureReview(reviewerId, e.taskId, ExecutionErrorCode, text, CrashRef(e.taskId, reviewerId, env.ms(t)),
                          hint, env.iso(t + 1)), t + 2)
  }

  /** The `review_result` a reviewer answers an assignment with. */
  function ReviewEnvelope(cfg: Config, env: Env, reviewerId: string, t: nat, e: Envelope): (r: (Envelope, nat))
    ensures t <= r.1
    ensures r.0.msgType == "review_result" && r.0.to == "aggregator" && r.0.senderId == reviewerId
    ensures r.0.taskId == e.taskId && r.0.stateVersion == e.stateVersion + 1
    ensures r.0.parentId == (if e.msgId == "" then None else Some(e.msgId))
    ensures r.0.payload == ReviewPayloadFor(cfg, env, reviewerId, e, t).0
  {
    var p := ReviewPayloadFor(cfg, env, reviewerId, e, t);
    CreateEnvelope(env, p.1, e.taskId, reviewerId, "aggregator", "review_result", p.0, e.stateVersion + 1,
                   Some(e.msgId))
  }

  function Review(cfg: Config, env: Env, reviewerId: string, w: World, e: Envelope): World {
    PublishBuilt(env, w, ReviewEnvelope(cfg, env, reviewerId, w.tick, e))
  }

  /** `requiredAgents.every((agent) => receivedAgents.includes(agent))`. */
  predicate Quorum(required: seq<string>, received: seq<string>) {
    forall a :: a in required ==> a in received
  }

  /** `requiredAgents.map((agent) => reviews[agent]).filter(Boolean)`, each
      review with its reviewer. */
  function RequiredRows(required: seq<string>, reviews: Reviews): (rows: Reviews)
    ensures Quorum(required, ReviewerIds(reviews)) ==>
      && |rows| == |required|
      && forall i :: 0 <= i < |rows| ==> rows[i] == (required[i], FindReview(reviews, required[i]).value)
  {
    if |required| == 0 then []
    else
      var rest := RequiredRows(required[1..], reviews);
      match FindReview(reviews, required[0])
      case Some(r) => [(required[0], r)] + rest
      case None => rest
  }

  function StrArr(xs: seq<string>): (v: Value)
    ensures v.Arr? && |v.items| == |xs| && forall i :: 0 <= i < |xs| ==> v.items[i] == Str(xs[i])
  {
    Arr(seq(|xs|, i requires 0 <= i < |xs| => Str(xs[i])))
  }

  function SourceIds(rows: Reviews): (ids: seq<string>)
    ensures |ids| == |rows| && forall i :: 0 <= i < |rows| ==> ids[i] == rows[i].1.msgId
  {
    seq(|rows|, i requires 0 <= i < |rows| => rows[i].1.msgId)
  }

  /** The aggregation payload. */
  function AggregationObject(taskId: string, required: seq<string>, received: seq<string>, d: Aggregate,
                             now: string, sourceIds: seq<string>): Value {
    Obj([("schema_version", Num(1)),
         ("task_id", Str(taskId)),
         ("required_agents", StrArr(required)),
         ("received_agents", StrArr(received)),
         ("quorum_reached", Bool(true)),
         ("verdict", Str(d.verdict)),
         ("blocking_count", d.blockingCount.ToValue()),
         ("disagree", Bool(d.disagree)),
         ("next_action", Str(d.nextAction)),
         ("generated_at", Str(now)),
         ("source_msg_ids", StrArr(sourceIds))])
  }

  /** The `aggregation_result` for the reviews of a task: the decision over
      the required reviewers' rows, stamped at tick `t`. */
  function AggregationEnvelope(cfg: Config, env: Env, t: nat, e: Envelope, reviews: Reviews): (r: (Envelope, nat))
    ensures r.1 == t + 4 && r.0.msgId == env.uuid(t + 2)
    ensures r.0.msgType == "aggregation_result" && r.0.to == "orchestrator" && r.0.senderId == "aggregator"
    ensures r.0.taskId == e.taskId && r.0.stateVersion == e.stateVersion + 1
    ensures r.0.parentId == (if e.msgId == "" then None else Some(e.msgId))
  {
    var rows := RequiredRows(cfg.requiredAgents, reviews);
    var payload := AggregationObject(e.taskId, cfg.requiredAgents, Sort(ReviewerIds(reviews)), Decide(rows),
                                     env.iso(t), SourceIds(rows));
    CreateEnvelope(env, t + 1, e.taskId, "aggregator", "orchestrator", "aggregation_result", payload,
                   e.stateVersion + 1, Some(e.msgId))
  }

  /** The aggregation envelope is the envelope made one tick later with the
      aggregation object as its payload. */
  lemma AggregationEnvelopeOf(cfg: Config, env: Env, t: nat, e: Envelope, reviews: Reviews)
    ensures var rows := RequiredRows(cfg.requiredAgents, reviews);
      AggregationEnvelope(cfg, env, t, e, reviews) ==
        CreateEnvelope(env, t + 1, e.taskId, "aggregator", "orchestrator", "aggregation_result",
                       AggregationObject(e.taskId, cfg.requiredAgents, Sort(ReviewerIds(reviews)), Decide(rows),
                                         env.iso(t), SourceIds(rows)),
                       e.stateVersion + 1, Some(e.msgId))
  {
  }

  /** The aggregator's work on a first-seen review: cache it; once every
      required reviewer has a review and the guard of the task is open,
      publish the aggregation and close the guard. */
  function Aggregation(cfg: Config, env: Env, w: World, e: Envelope): (World, nat) {
    var s1 := RecordReviewState(w.store, e.taskId, e.senderId, e.payload, e.msgId);
    var reviews := ReviewsOf(s1, e.taskId);
    if !Quorum(cfg.requiredAgents, Sort(ReviewerIds(reviews))) || !CanPublishOf(s1, e.taskId) then
      (w.(store := s1), 1)
    else
      (AggregationPublish(cfg, env, w.(store := s1), e, reviews), 2)
  }

  /** The publishing half: the aggregation is built from tick `w.tick` on,
      published, and the guard of the task closed at the tick after. */
  function AggregationPublish(cfg: Config, env: Env, w: World, e: Envelope, reviews: Reviews): World {
    var ae := AggregationEnvelope(cfg, env, w.tick, e, reviews);
    var w2 := PublishBuilt(env, w, ae);
    World(w2.boxes, MarkAggregationPublishedState(w.store, e.taskId, ae.0.msgId, env.iso(w2.tick)), w2.tick + 1)
  }

  /** Publishing the aggregation: the envelope is posted, then the guard of
      the task closes on its id at the next tick. */
  lemma AggregationPublishOf(cfg: Config, env: Env, w: World, e: Envelope, reviews: Reviews)
    ensures var ae := AggregationEnvelope(cfg, env, w.tick, e, reviews);
      var w2 := PublishBuilt(env, w, ae);
      AggregationPublish(cfg, env, w, e, reviews) ==
        World(w2.boxes, MarkAggregationPublishedState(w.store, e.taskId, ae.0.msgId, env.iso(w2.tick)), w2.tick + 1)
  {
  }

  /** The decision the orchestrator records from an aggregation. */
  function DecisionOf(e: Envelope, now: string): Decision {
    Decision(e.taskId, Get(e.payload, "verdict"), Get(e.payload, "next_action"), Get(e.payload, "blocking_count"),
             Get(e.payload, "disagree"), now)
  }

  function Settle(env: Env, w: World, e: Envelope): World {
    World(w.boxes, SetFinalDecisionState(w.store, e.taskId, DecisionOf(e, env.iso(w.tick)), env.iso(w.tick + 1)),
          w.tick + 2)
  }

  /** What an agent does with a first-seen message of the type it expects. */
  function Act(cfg: Config, env: Env, role: Role, w: World, e: Envelope): (World, nat) {
    match role
    case ReviewerRole(id) => (Review(cfg, env, id, w, e), 2)
    case AggregatorRole => Aggregation(cfg, env, w, e)
    case OrchestratorRole => (Settle(env, w, e), 2)
  }

  /** One consumed message, and the actions it counts: one for the nack or the
      ack, one more for what a first-seen message of the expected type makes
      the agent publish or record. */
  function Step(cfg: Config, env: Env, role: Role, w: World, item: Consumed): (World, nat)
    requires Has(DirOf(w.boxes.inbox, item.agentId), item.name)
  {
    match Admit(cfg, env, w, item, Expected(role))
    case Rejected(w1) => (w1, 1)
    case Seen(w1) => (w1, 1)
    case Fresh(w1) => Act(cfg, env, role, w1, item.envelope)
  }

  // ---------------------------------------------------------------------------
  // Passes
  // ---------------------------------------------------------------------------

  /** What a step keeps of the mailbox: the directories stay ordered, and
      every pending file of `agent` except `gone` is still pending. */
  ghost predicate Keeps(b1: Boxes, b2: Boxes, agent: string, gone: string) {
    && (BoxesOrdered(b1) ==> BoxesOrdered(b2))
    && forall n :: n != gone && Has(DirOf(b1.inbox, agent), n) ==> Has(DirOf(b2.inbox, agent), n)
  }

  /** Consumed items of `agent` still to handle: each still in the inbox, no
      name twice. */
  ghost predicate Pending(b: Boxes, agent: string, items: seq<Consumed>) {
    && (forall i :: 0 <= i < |items| ==> items[i].agentId == agent && Has(DirOf(b.inbox, agent), items[i].name))
    && (forall i, j :: 0 <= i < j < |items| ==> items[i].name != items[j].name)
  }

  lemma KeepsTrans(b1: Boxes, b2: Boxes, b3: Boxes, agent: string, gone: string)
    requires Keeps(b1, b2, agent, gone) && Keeps(b2, b3, agent, gone)
    ensures Keeps(b1, b3, agent, gone)
  {
  }

  lemma KeepsPublish(b: Boxes, e: Envelope, ms: nat, uuid: string, agent: string, gone: string)
    ensures Keeps(b, PublishBoxes(b, e, ms, uuid), agent, gone)
  {
    var b2 := PublishBoxes(b, e, ms, uuid);
    if BoxesOrdered(b) {
      PublishEffect(b, e, ms, uuid, agent);
    }
    forall n | n != gone && Has(DirOf(b.inbox, agent), n) ensures Has(DirOf(b2.inbox, agent), n) {
      if agent == e.to {
        FindPut(DirOf(b.inbox, e.to), File(FileName(e, ms, uuid), Stored(e)), n);
      }
    }
  }

  lemma KeepsAck(b: Boxes, item: Consumed)
    requires Has(DirOf(b.inbox, item.agentId), item.name)
    ensures Keeps(b, AckBoxes(b, item), item.agentId, item.name)
  {
    if BoxesOrdered(b) {
      AckOrdered(b, item);
    }
    forall n | n != item.name && Has(DirOf(b.inbox, item.agentId), n)
      ensures Has(DirOf(AckBoxes(b, item).inbox, item.agentId), n)
    {
      FindRemove(DirOf(b.inbox, item.agentId), item.name, n);
    }
  }

  lemma KeepsNack(b: Boxes, item: Consumed, reason: string, now: string)
    requires Has(DirOf(b.inbox, item.agentId), item.name)
    ensures Keeps(b, NackBoxes(b, item, reason, now), item.agentId, item.name)
  {
    if BoxesOrdered(b) {
      NackOrdered(b, item, reason, now);
    }
    forall n | n != item.name && Has(DirOf(b.inbox, item.agentId), n)
      ensures Has(DirOf(NackBoxes(b, item, reason, now).inbox, item.agentId), n)
    {
      FindRemove(DirOf(b.inbox, item.agentId), item.name, n);
    }
  }

  lemma AdmitKeeps(cfg: Config, env: Env, w: World, item: Consumed, expected: string)
    requires Has(DirOf(w.boxes.inbox, item.agentId), item.name)
    ensures Keeps(w.boxes, Admit(cfg, env, w, item, expected).next.boxes, item.agentId, item.name)
  {
    var v := Check(cfg, env, item.envelope);
    if v.Invalid? {
      KeepsNack(w.boxes, item, v.code, env.iso(w.tick + 1));
    } else {
      KeepsAck(w.boxes, item);
    }
  }

  lemma KeepsPublishBuilt(env: Env, w: World, built: (Envelope, nat), agent: string, gone: string)
    ensures Keeps(w.boxes, PublishBuilt(env, w, built).boxes, agent, gone)
  {
    KeepsPublish(w.boxes, built.0, env.ms(built.1), env.uuid(built.1 + 1), agent, gone);
  }

  lemma AggregationKeeps(cfg: Config, env: Env, w: World, e: Envelope, agent: string, gone: string)
    ensures Keeps(w.boxes, Aggregation(cfg, env, w, e).0.boxes, agent, gone)
  {
    var s1 := RecordReviewState(w.store, e.taskId, e.senderId, e.payload, e.msgId);
    var w1 := w.(store := s1);
    KeepsPublishBuilt(env, w1, AggregationEnvelope(cfg, env, w.tick, e, ReviewsOf(s1, e.taskId)), agent, gone);
  }

  lemma ActKeeps(cfg: Config, env: Env, role: Role, w: World, e: Envelope, agent: string, gone: string)
    ensures Keeps(w.boxes, Act(cfg, env, role, w, e).0.boxes, agent, gone)
  {
    match role
    case ReviewerRole(id) => KeepsPublishBuilt(env, w, ReviewEnvelope(cfg, env, id, w.tick, e), agent, gone);
    case AggregatorRole => AggregationKeeps(cfg, env, w, e, agent, gone);
    case OrchestratorRole =>
  }

  /** A step takes its own file out of the inbox and no other. */
  lemma StepKeeps(cfg: Config, env: Env, role: Role, w: World, item: Consumed)
    requires Has(DirOf(w.boxes.inbox, item.agentId), item.name)
    ensures Keeps(w.boxes, Step(cfg, env, role, w, item).0.boxes, item.agentId, item.name)
  {
    var g := Admit(cfg, env, w, item, Expected(role));
    AdmitKeeps(cfg, env, w, item, Expected(role));
    if g.Fresh? {
      ActKeeps(cfg, env, role, g.next, item.envelope, item.agentId, item.name);
      KeepsTrans(w.boxes, g.next.boxes, Step(cfg, env, role, w, item).0.boxes, item.agentId, item.name);
    }
  }

  lemma PendingTail(b: Boxes, b2: Boxes, agent: string, items: seq<Consumed>)
    requires Pending(b, agent, items) && |items| > 0
    requires Keeps(b, b2, agent, items[0].name)
    ensures Pending(b2, agent, items[1..])
  {
    forall i | 0 <= i < |items| - 1 ensures Has(DirOf(b2.inbox, agent), items[1..][i].name) {
      assert items[1..][i] == items[i + 1];
    }
  }

  /** The items a pass consumes are pending. */
  lemma ConsumePending(b: Boxes, agent: string)
    requires BoxesOrdered(b)
    ensures Pending(b, agent, ConsumeBoxes(b, agent, ConsumeLimit))
  {
    var r := ConsumeBoxes(b, agent, ConsumeLimit);
    ConsumeFirst(b, agent, ConsumeLimit);
    forall i, j | 0 <= i < j < |r| ensures r[i].name != r[j].name {
      if r[i].name == r[j].name {
        LessIrreflexive(r[i].name);
      }
    }
  }

  /** The loop over the consumed items, with the actions it counts. */
  function Loop(cfg: Config, env: Env, role: Role, w: World, items: seq<Consumed>): (r: (World, nat))
    requires Pending(w.boxes, AgentOf(role), items)
    ensures BoxesOrdered(w.boxes) ==> BoxesOrdered(r.0.boxes)
    decreases |items|, 1
  {
    if |items| == 0 then (w, 0) else Turn(cfg, env, role, w, items)
  }

  /** One turn of the loop: the step of the first item, then the loop over
      the others. */
  function Turn(cfg: Config, env: Env, role: Role, w: World, items: seq<Consumed>): (r: (World, nat))
    requires Pending(w.boxes, AgentOf(role), items) && |items| > 0
    ensures BoxesOrdered(w.boxes) ==> BoxesOrdered(r.0.boxes)
    decreases |items|, 0
  {
    var r1 := Step(cfg, env, role, w, items[0]);
    StepKeeps(cfg, env, role, w, items[0]);
    PendingTail(w.boxes, r1.0.boxes, AgentOf(role), items);
    var r2 := Loop(cfg, env, role, r1.0, items[1..]);
    (r2.0, r1.1 + r2.1)
  }

  lemma LoopIsTurn(cfg: Config, env: Env, role: Role, w: World, items: seq<Consumed>)
    requires Pending(w.boxes, AgentOf(role), items) && |items| > 0
    ensures Loop(cfg, env, role, w, items) == Turn(cfg, env, role, w, items)
  {
  }

  /** A turn is the step of the first item, followed by the loop over the
      others, whose items are still pending. */
  lemma TurnStep(cfg: Config, env: Env, role: Role, w: World, items: seq<Consumed>)
    requires Pending(w.boxes, AgentOf(role), items) && |items| > 0
    ensures Has(DirOf(w.boxes.inbox, items[0].agentId), items[0].name)
    ensures Pending(Step(cfg, env, role, w, items[0]).0.boxes, AgentOf(role), items[1..])
    ensures var r1 := Step(cfg, env, role, w, items[0]);
      var r2 := Loop(cfg, env, role, r1.0, items[1..]);
      Turn(cfg, env, role, w, items).0 == r2.0 && Turn(cfg, env, role, w, items).1 == r1.1 + r2.1
  {
    StepKeeps(cfg, env, role, w, items[0]);
    PendingTail(w.boxes, Step(cfg, env, role, w, items[0]).0.boxes, AgentOf(role), items);
  }

  /** `processReviewer`, `processAggregator`, `processOrchestrator`: the first
      hundred pending messages of the agent, in name order. */
  function Pass(cfg: Config, env: Env, role: Role, w: World): (r: (World, nat))
    requires BoxesOrdered(w.boxes)
    ensures BoxesOrdered(r.0.boxes)
  {
    ConsumePending(w.boxes, AgentOf(role));
    Loop(cfg, env, role, w, ConsumeBoxes(w.boxes, AgentOf(role), ConsumeLimit))
  }

  /** The passes of `roles` in turn, with the actions they count. */
  function Passes(cfg: Config, env: Env, roles: seq<Role>, w: World): (r: (World, nat))
    requires BoxesOrdered(w.boxes)
    ensures BoxesOrdered(r.0.boxes)
    decreases |roles|
  {
    if |roles| == 0 then (w, 0)
    else
      var p := Pass(cfg, env, roles[0], w);
      var q := Passes(cfg, env, roles[1..], p.0);
      (q.0, p.1 + q.1)
  }

  /** The order of `runOnePass`: codex, claude, the aggregator, the orchestrator. */
  const PassOrder: seq<Role> := [ReviewerRole("codex"), ReviewerRole("claude"), AggregatorRole, OrchestratorRole]

  /** `runOnePass`. */
  function OnePass(cfg: Config, env: Env, w: World): (r: (World, nat))
    requires BoxesOrdered(w.boxes)
    ensures BoxesOrdered(r.0.boxes)
  {
    Passes(cfg, env, PassOrder, w)
  }

  /** `runOnePass` is the four agents' passes in turn. */
  lemma OnePassInTurn(cfg: Config, env: Env, w: World)
    requires BoxesOrdered(w.boxes)
    ensures var p1 := Pass(cfg, env, ReviewerRole("codex"), w);
      var p2 := Pass(cfg, env, ReviewerRole("claude"), p1.0);
      var p3 := Pass(cfg, env, AggregatorRole, p2.0);
      var p4 := Pass(cfg, env, OrchestratorRole, p3.0);
      OnePass(cfg, env, w).0 == p4.0 && OnePass(cfg, env, w).1 == p1.1 + p2.1 + p3.1 + p4.1
  {
    var p1 := Pass(cfg, env, ReviewerRole("codex"), w);
    var p2 := Pass(cfg, env, ReviewerRole("claude"), p1.0);
    var p3 := Pass(cfg, env, AggregatorRole, p2.0);
    var p4 := Pass(cfg, env, OrchestratorRole, p3.0);
    assert PassOrder[1..][1..][1..][1..] == [];
    assert Passes(cfg, env, PassOrder[1..][1..][1..], p3.0).0 == p4.0;
    assert Passes(cfg, env, PassOrder[1..][1..][1..], p3.0).1 == p4.1;
    assert Passes(cfg, env, PassOrder[1..][1..], p2.0).0 == p4.0;
    assert Passes(cfg, env, PassOrder[1..][1..], p2.0).1 == p3.1 + p4.1;
    assert Passes(cfg, env, PassOrder[1..], p1.0).0 == p4.0;
    assert Passes(cfg, env, PassOrder[1..], p1.0).1 == p2.1 + p3.1 + p4.1;
  }

  /** A pass on a world whose directories are in name order, as every world
      the mailbox produces is; any other world is left as it is. */
  ghost function Advance(cfg: Config, env: Env, v: World): World {
    if BoxesOrdered(v.boxes) then OnePass(cfg, env, v).0 else v
  }

  /** The actions `Advance` counts. */
  ghost function PassCount(cfg: Config, env: Env, v: World): nat {
    if BoxesOrdered(v.boxes) then OnePass(cfg, env, v).1 else 0
  }

  /** The world after `k` passes. */
  ghost function Iterate(cfg: Config, env: Env, w: World, k: nat): World {
    if k == 0 then w else Advance(cfg, env, Iterate(cfg, env, w, k - 1))
  }

  /** The actions of pass number `k` (from zero). */
  ghost function PassActions(cfg: Config, env: Env, w: World, k: nat): nat {
    PassCount(cfg, env, Iterate(cfg, env, w, k))
  }

  /** The actions of the first `k` passes. */
  ghost function TotalActions(cfg: Config, env: Env, w: World, k: nat): nat {
    if k == 0 then 0 else TotalActions(cfg, env, w, k - 1) + PassActions(cfg, env, w, k - 1)
  }

  // ---------------------------------------------------------------------------
  // What one message does
  // ---------------------------------------------------------------------------

  /** Every consumed message counts one action, or two when the agent acted. */
  lemma StepActions(cfg: Config, env: Env, role: Role, w: World, item: Consumed)
    requires Has(DirOf(w.boxes.inbox, item.agentId), item.name)
    ensures 1 <= Step(cfg, env, role, w, item).1 <= 2
  {
  }

  /** A validated message whose receipt already exists is acked and counted
      once; it publishes nothing and records no review and no decision. */
  lemma DuplicateIsAckedOnly(cfg: Config, env: Env, role: Role, w: World, item: Consumed)
    requires Has(DirOf(w.boxes.inbox, item.agentId), item.name)
    requires Check(cfg, env, item.envelope) == Valid
    requires ReceiptKey(item.envelope.taskId, item.envelope.senderId, item.envelope.msgId) in w.store.receipts
    ensures Step(cfg, env, role, w, item) == (w.(boxes := AckBoxes(w.boxes, item)), 1)
  {
  }

  /** A message that fails validation gets one quarantine row carrying its
      code at the end of the log and is nacked to the agent's deadletter
      directory; no receipt is inserted and no other state changes. */
  lemma InvalidIsQuarantined(cfg: Config, env: Env, role: Role, w: World, item: Consumed)
    requires Has(DirOf(w.boxes.inbox, item.agentId), item.name)
    requires Check(cfg, env, item.envelope).Invalid?
    ensures var v := Check(cfg, env, item.envelope);
      var (w2, actions) := Step(cfg, env, role, w, item);
      var n := |w.store.quarantine|;
      && actions == 1
      && w2.boxes == NackBoxes(w.boxes, item, v.code, env.iso(w.tick + 1))
      && |w2.store.quarantine| == n + 1 && w2.store.quarantine[..n] == w.store.quarantine
      && w2.store.quarantine[n].rejection.code == v.code
      && w2.store.quarantine[n].rejection.msgId == item.envelope.msgId
      && w2.store.(quarantine := w.store.quarantine) == w.store
  {
    var v := Check(cfg, env, item.envelope);
    AppendQuarantineMeaning(w.store, RejectionOf(item.envelope, v), env.iso(w.tick));
  }

  /** A first-seen assignment to a reviewer is acked with its receipt and
      answered by exactly one publication: a `review_result` from that
      reviewer to `aggregator`, one state version later, whose parent is the
      assignment. */
  lemma FreshAssignmentAnswered(cfg: Config, env: Env, id: string, w: World, item: Consumed)
    requires Has(DirOf(w.boxes.inbox, item.agentId), item.name)
    requires Check(cfg, env, item.envelope) == Valid
    requires ReceiptKey(item.envelope.taskId, item.envelope.senderId, item.envelope.msgId) !in w.store.receipts
    requires item.envelope.msgType == "task_assignment"
    ensures var e := item.envelope;
      var s1 := InsertReceiptState(w.store, e.taskId, e.senderId, e.msgId, e.msgType, env.iso(w.tick)).0;
      var w1 := World(AckBoxes(w.boxes, item), s1, w.tick + 1);
      var built := ReviewEnvelope(cfg, env, id, w1.tick, e);
      && Step(cfg, env, ReviewerRole(id), w, item) == (PublishBuilt(env, w1, built), 2)
      && built.0.msgType == "review_result" && built.0.to == "aggregator" && built.0.senderId == id
      && built.0.taskId == e.taskId && built.0.stateVersion == e.stateVersion + 1
      && built.0.parentId == (if e.msgId == "" then None else Some(e.msgId))
  {
    var e := item.envelope;
    var s1 := InsertReceiptState(w.store, e.taskId, e.senderId, e.msgId, e.msgType, env.iso(w.tick)).0;
    var w1 := World(AckBoxes(w.boxes, item), s1, w.tick + 1);
    assert Admit(cfg, env, w, item, "task_assignment") == Fresh(w1);
  }

  /** The deterministic reviewer's answer is a JSON value naming the task; it
      fails, with the one `TEST_MISSING` finding and `rework`, exactly when the
      assignment's instruction carries `force-fail:<reviewer>`, and otherwise
      passes with nothing blocking and `proceed`. */
  lemma DeterministicAnswer(cfg: Config, env: Env, id: string, e: Envelope, t: nat)
    requires cfg.mode == Deterministic
    ensures var p := ReviewPayloadFor(cfg, env, id, e, t).0;
      var forced := Contains(InstructionOf(e.payload), ForceFailMarker(id));
      && WellFormed(p) && Get(p, "task_id") == Str(e.taskId)
      && (Get(p, "verdict") == Str("FAIL") <==> forced)
      && (forced ==> Get(p, "blocking") == Arr([TestMissingFinding]) && Get(p, "next_action") == Str("rework"))
      && (!forced ==> Get(p, "blocking") == Arr([]) && Get(p, "next_action") == Str("proceed"))
  {
    var hint := HintFor(cfg, id);
    DeterministicReviewMeaning(id, e.taskId, InstructionOf(e.payload), hint, env.iso(t), env.ms(t + 1));
    DeterministicReviewWellFormed(id, e.taskId, InstructionOf(e.payload), hint, env.iso(t), env.ms(t + 1));
  }

  /** A CLI reviewer that fails is answered by a FAIL that needs a person, with
      one blocking finding: the class of the failure message for a classified
      failure, an execution error for anything else thrown. */
  lemma CliFailureAnswer(cfg: Config, env: Env, id: string, e: Envelope, t: nat)
    requires cfg.mode == Cli && !env.cli(id, e).CliPayload?
    ensures var p := ReviewPayloadFor(cfg, env, id, e, t).0;
      var out := env.cli(id, e);
      && WellFormed(p) && Get(p, "task_id") == Str(e.taskId)
      && Get(p, "verdict") == Str("FAIL") && Get(p, "next_action") == Str("manual_review_required")
      && (out.CliFailure? ==>
            Get(p, "blocking") == Arr([CliFailureFinding(Classify(out.message), "Error: " + out.message)]))
      && (out.CliCrash? ==> Get(p, "blocking") == Arr([CliFailureFinding(ExecutionErrorCode, out.errorText)]))
  {
    var hint := HintFor(cfg, id);
    match env.cli(id, e)
    case CliFailure(message, ref) =>
      CliFailureMeaning(id, e.taskId, Classify(message), "Error: " + message, ref, hint, env.iso(t));
      CliFailureReviewWellFormed(id, e.taskId, Classify(message), "Error: " + message, ref, hint, env.iso(t));
    case CliCrash(text) =>
      var ref := CrashRef(e.taskId, id, env.ms(t));
      CliFailureMeaning(id, e.taskId, ExecutionErrorCode, text, ref, hint, env.iso(t + 1));
      CliFailureReviewWellFormed(id, e.taskId, ExecutionErrorCode, text, ref, hint, env.iso(t + 1));
  }

  /** A CLI reviewer's own payload is normalised: FAIL exactly when it said
      FAIL, the envelope's task, a known next action. */
  lemma CliPayloadAnswer(cfg: Config, env: Env, id: string, e: Envelope, t: nat)
    requires cfg.mode == Cli && env.cli(id, e).CliPayload?
    ensures var p := ReviewPayloadFor(cfg, env, id, e, t).0;
      var raw := env.cli(id, e).payload;
      && WellFormed(p) && Get(p, "task_id") == Str(e.taskId)
      && (Get(p, "verdict") == Str("FAIL") <==> Get(raw, "verdict") == Str("FAIL"))
      && Get(p, "next_action") in NextActions
  {
    var hint := HintFor(cfg, id);
    var out := env.cli(id, e);
    NormalizeReviewPayloadMeaning(id, e.taskId, out.payload, out.rawOutputRef, hint, env.iso(t));
    NormalizeReviewPayloadWellFormed(id, e.taskId, out.payload, out.rawOutputRef, hint, env.iso(t));
  }

  // ---------------------------------------------------------------------------
  // The aggregation: quorum, guard and decision
  // ---------------------------------------------------------------------------

  const AggregationKeys: seq<string> :=
    ["schema_version", "task_id", "required_agents", "received_agents", "quorum_reached", "verdict",
     "blocking_count", "disagree", "next_action", "generated_at", "source_msg_ids"]

  lemma AggregationKeysDistinct()
    ensures Distinct(AggregationKeys)
  {
  }

  lemma AggregationGets(r: Value)
    requires r.Obj? && Keys(r.fields) == AggregationKeys
    ensures DistinctKeys(r.fields)
    ensures Get(r, "task_id") == r.fields[1].1 && Get(r, "required_agents") == r.fields[2].1
    ensures Get(r, "received_agents") == r.fields[3].1 && Get(r, "quorum_reached") == r.fields[4].1
    ensures Get(r, "verdict") == r.fields[5].1 && Get(r, "blocking_count") == r.fields[6].1
    ensures Get(r, "disagree") == r.fields[7].1 && Get(r, "next_action") == r.fields[8].1
    ensures Get(r, "generated_at") == r.fields[9].1 && Get(r, "source_msg_ids") == r.fields[10].1
  {
    AggregationKeysDistinct();
    KeysDistinct(r.fields, AggregationKeys);
    forall j | 0 <= j < |r.fields| ensures Get(r, AggregationKeys[j]) == r.fields[j].1 {
      LookupAt(r.fields, j);
    }
    assert AggregationKeys[1] == "task_id" && AggregationKeys[2] == "required_agents";
    assert AggregationKeys[3] == "received_agents" && AggregationKeys[4] == "quorum_reached";
    assert AggregationKeys[5] == "verdict" && AggregationKeys[6] == "blocking_count";
    assert AggregationKeys[7] == "disagree" && AggregationKeys[8] == "next_action";
    assert AggregationKeys[9] == "generated_at" && AggregationKeys[10] == "source_msg_ids";
  }

  /** Reading a property of the aggregation payload gives the value it was
      built with. */
  lemma AggregationObjectGets(taskId: string, required: seq<string>, received: seq<string>, d: Aggregate,
                              now: string, sourceIds: seq<string>)
    ensures var r := AggregationObject(taskId, required, received, d, now, sourceIds);
      && Get(r, "task_id") == Str(taskId) && Get(r, "required_agents") == StrArr(required)
      && Get(r, "received_agents") == StrArr(received) && Get(r, "quorum_reached") == Bool(true)
      && Get(r, "verdict") == Str(d.verdict) && Get(r, "blocking_count") == d.blockingCount.ToValue()
      && Get(r, "disagree") == Bool(d.disagree) && Get(r, "next_action") == Str(d.nextAction)
      && Get(r, "generated_at") == Str(now) && Get(r, "source_msg_ids") == StrArr(sourceIds)
  {
    var r := AggregationObject(taskId, required, received, d, now, sourceIds);
    assert Keys(r.fields) == AggregationKeys;
    AggregationGets(r);
  }

  /** The aggregation payload is a JSON value, so it survives the mailbox file. */
  lemma AggregationObjectWellFormed(taskId: string, required: seq<string>, received: seq<string>, d: Aggregate,
                                    now: string, sourceIds: seq<string>)
    ensures WellFormed(AggregationObject(taskId, required, received, d, now, sourceIds))
  {
    var r := AggregationObject(taskId, required, received, d, now, sourceIds);
    assert Keys(r.fields) == AggregationKeys;
    AggregationKeysDistinct();
    KeysDistinct(r.fields, AggregationKeys);
    forall i | 0 <= i < |r.fields| ensures WellFormed(r.fields[i].1) {
    }
  }

  /** Sorting the received ids does not change whether the quorum is reached. */
  lemma QuorumSorted(required: seq<string>, ids: seq<string>)
    ensures Quorum(required, Sort(ids)) <==> Quorum(required, ids)
  {
    forall a ensures a in Sort(ids) <==> a in ids {
      assert a in Sort(ids) <==> a in multiset(Sort(ids));
      assert a in ids <==> a in multiset(ids);
    }
  }

  /** The aggregator publishes exactly when every required reviewer is the
      sender of this review or already has a cached one for the task, and
      the guard of the task is open; otherwise it only caches the review. */
  lemma AggregationGate(cfg: Config, env: Env, w: World, e: Envelope)
    requires StoreValid(w.store)
    ensures var s1 := RecordReviewState(w.store, e.taskId, e.senderId, e.payload, e.msgId);
      var open := Quorum(cfg.requiredAgents, [e.senderId] + ReviewerIds(ReviewsOf(w.store, e.taskId)))
                  && CanPublishOf(w.store, e.taskId);
      var r := Aggregation(cfg, env, w, e);
      && (r.1 == 2 <==> open)
      && (!open ==> r == (w.(store := s1), 1))
  {
    var s1 := RecordReviewState(w.store, e.taskId, e.senderId, e.payload, e.msgId);
    RecordReviewMeaning(w.store, e.taskId, e.senderId, e.payload, e.msgId, e.taskId, e.senderId);
    QuorumSorted(cfg.requiredAgents, ReviewerIds(ReviewsOf(s1, e.taskId)));
    var before := [e.senderId] + ReviewerIds(ReviewsOf(w.store, e.taskId));
    assert forall x :: x in ReviewerIds(ReviewsOf(s1, e.taskId)) <==> x in before;
    assert CanPublishOf(s1, e.taskId) == CanPublishOf(w.store, e.taskId);
  }

  /** When the aggregator publishes, it sends one `aggregation_result` to the
      orchestrator, one state version later, whose parent is the review, and
      then records its message id as the task's published aggregation, which
      closes the guard. */
  lemma AggregationPublished(cfg: Config, env: Env, w: World, e: Envelope)
    requires Aggregation(cfg, env, w, e).1 == 2
    ensures var s1 := RecordReviewState(w.store, e.taskId, e.senderId, e.payload, e.msgId);
      var ae := AggregationEnvelope(cfg, env, w.tick, e, ReviewsOf(s1, e.taskId));
      var r := Aggregation(cfg, env, w, e).0;
      && r.boxes == PublishBoxes(w.boxes, ae.0, env.ms(w.tick + 4), env.uuid(w.tick + 5))
      && r.store == MarkAggregationPublishedState(s1, e.taskId, env.uuid(w.tick + 2), env.iso(w.tick + 6))
      && r.tick == w.tick + 7
      && (env.uuid(w.tick + 2) != "" ==> !CanPublishOf(r.store, e.taskId))
  {
    var s1 := RecordReviewState(w.store, e.taskId, e.senderId, e.payload, e.msgId);
    MarkAggregationPublishedMeaning(s1, e.taskId, env.uuid(w.tick + 2), env.iso(w.tick + 6), e.taskId);
  }

  /** Over a quorum, the decision is taken on the required reviewers'
      cached reviews, in the order of the required list: FAIL exactly when
      one of them failed or reported something blocking, the blocking count
      their sum. */
  lemma RequiredDecision(required: seq<string>, reviews: Reviews)
    requires Quorum(required, ReviewerIds(reviews))
    ensures var rows := RequiredRows(required, reviews);
      var d := Decide(rows);
      && |rows| == |required| && (forall i :: 0 <= i < |required| ==> rows[i].1 == FindReview(reviews, required[i]).value)
      && (d.verdict == "FAIL" <==>
            exists i :: 0 <= i < |required| && FailingRow((required[i], FindReview(reviews, required[i]).value)))
      && (d.verdict == "PASS" || d.verdict == "FAIL")
      && d.blockingCount == SumBlocking(rows)
  {
    var rows := RequiredRows(required, reviews);
    DecisionRule(rows);
    if Decide(rows).verdict == "FAIL" {
      var i :| 0 <= i < |rows| && FailingRow(rows[i]);
      assert FailingRow((required[i], FindReview(reviews, required[i]).value));
    }
    if exists i :: 0 <= i < |required| && FailingRow((required[i], FindReview(reviews, required[i]).value)) {
      var i :| 0 <= i < |required| && FailingRow((required[i], FindReview(reviews, required[i]).value));
      assert FailingRow(rows[i]);
    }
  }

  /** The published payload is a JSON value naming the task, and carries the
      decision over the required rows and their message ids as its sources. */
  lemma AggregationPayload(cfg: Config, env: Env, t: nat, e: Envelope, reviews: Reviews)
    ensures var p := AggregationEnvelope(cfg, env, t, e, reviews).0.payload;
      var rows := RequiredRows(cfg.requiredAgents, reviews);
      var d := Decide(rows);
      && WellFormed(p) && Get(p, "task_id") == Str(e.taskId)
      && Get(p, "required_agents") == StrArr(cfg.requiredAgents)
      && Get(p, "received_agents") == StrArr(Sort(ReviewerIds(reviews)))
      && Get(p, "verdict") == Str(d.verdict) && Get(p, "next_action") == Str(d.nextAction)
      && Get(p, "blocking_count") == d.blockingCount.ToValue() && Get(p, "disagree") == Bool(d.disagree)
      && Get(p, "source_msg_ids") == StrArr(SourceIds(rows))
  {
    var rows := RequiredRows(cfg.requiredAgents, reviews);
    AggregationObjectGets(e.taskId, cfg.requiredAgents, Sort(ReviewerIds(reviews)), Decide(rows), env.iso(t),
                          SourceIds(rows));
    AggregationObjectWellFormed(e.taskId, cfg.requiredAgents, Sort(ReviewerIds(reviews)), Decide(rows), env.iso(t),
                                SourceIds(rows));
  }

  // ---------------------------------------------------------------------------
  // At most one aggregation per task
  // ---------------------------------------------------------------------------

  lemma AdmitKeepsRow(cfg: Config, env: Env, w: World, item: Consumed, expected: string, taskId: string)
    requires Has(DirOf(w.boxes.inbox, item.agentId), item.name)
    ensures RowOf(Admit(cfg, env, w, item, expected).next.store, taskId) == RowOf(w.store, taskId)
  {
  }

  lemma AggregationKeepsClosed(cfg: Config, env: Env, w: World, e: Envelope, taskId: string)
    requires !CanPublishOf(w.store, taskId)
    ensures !CanPublishOf(Aggregation(cfg, env, w, e).0.store, taskId)
  {
    var s1 := RecordReviewState(w.store, e.taskId, e.senderId, e.payload, e.msgId);
    assert RowOf(s1, taskId) == RowOf(w.store, taskId);
    if Aggregation(cfg, env, w, e).1 == 2 {
      AggregationPublished(cfg, env, w, e);
      MarkAggregationPublishedMeaning(s1, e.taskId, env.uuid(w.tick + 2), env.iso(w.tick + 6), taskId);
    }
  }

  lemma ActKeepsClosed(cfg: Config, env: Env, role: Role, w: World, e: Envelope, taskId: string)
    requires !CanPublishOf(w.store, taskId)
    ensures !CanPublishOf(Act(cfg, env, role, w, e).0.store, taskId)
  {
    match role
    case ReviewerRole(id) =>
    case AggregatorRole => AggregationKeepsClosed(cfg, env, w, e, taskId);
    case OrchestratorRole =>
      SetFinalDecisionMeaning(w.store, e.taskId, DecisionOf(e, env.iso(w.tick)), env.iso(w.tick + 1), taskId);
  }

  /** Once the guard of a task is closed, no step opens it again. */
  lemma StepKeepsClosed(cfg: Config, env: Env, role: Role, w: World, item: Consumed, taskId: string)
    requires Has(DirOf(w.boxes.inbox, item.agentId), item.name)
    requires !CanPublishOf(w.store, taskId)
    ensures !CanPublishOf(Step(cfg, env, role, w, item).0.store, taskId)
  {
    var g := Admit(cfg, env, w, item, Expected(role));
    AdmitKeepsRow(cfg, env, w, item, Expected(role), taskId);
    if g.Fresh? {
      ActKeepsClosed(cfg, env, role, g.next, item.envelope, taskId);
    }
  }

  /** With the guard of a task closed, a review of that task publishes
      nothing: the step counts only its ack. */
  lemma ClosedGuardPublishesNothing(cfg: Config, env: Env, w: World, item: Consumed)
    requires Has(DirOf(w.boxes.inbox, item.agentId), item.name)
    requires !CanPublishOf(w.store, item.envelope.taskId)
    ensures Step(cfg, env, AggregatorRole, w, item).1 == 1
  {
    AdmitKeepsRow(cfg, env, w, item, Expected(AggregatorRole), item.envelope.taskId);
  }

  lemma {:induction false} LoopKeepsClosed(cfg: Config, env: Env, role: Role, w: World, items: seq<Consumed>,
                                           taskId: string)
    requires Pending(w.boxes, AgentOf(role), items)
    requires !CanPublishOf(w.store, taskId)
    ensures !CanPublishOf(Loop(cfg, env, role, w, items).0.store, taskId)
    decreases |items|
  {
    if |items| > 0 {
      var w1 := Step(cfg, env, role, w, items[0]).0;
      StepKeepsClosed(cfg, env, role, w, items[0], taskId);
      StepKeeps(cfg, env, role, w, items[0]);
      PendingTail(w.boxes, w1.boxes, AgentOf(role), items);
      LoopKeepsClosed(cfg, env, role, w1, items[1..], taskId);
    }
  }

  lemma PassKeepsClosed(cfg: Config, env: Env, role: Role, w: World, taskId: string)
    requires BoxesOrdered(w.boxes)
    requires !CanPublishOf(w.store, taskId)
    ensures !CanPublishOf(Pass(cfg, env, role, w).0.store, taskId)
  {
    ConsumePending(w.boxes, AgentOf(role));
    LoopKeepsClosed(cfg, env, role, w, ConsumeBoxes(w.boxes, AgentOf(role), ConsumeLimit), taskId);
  }

  lemma {:induction false} PassesKeepsClosed(cfg: Config, env: Env, roles: seq<Role>, w: World, taskId: string)
    requires BoxesOrdered(w.boxes)
    requires !CanPublishOf(w.store, taskId)
    ensures !CanPublishOf(Passes(cfg, env, roles, w).0.store, taskId)
    decreases |roles|
  {
    if |roles| > 0 {
      PassKeepsClosed(cfg, env, roles[0], w, taskId);
      PassesKeepsClosed(cfg, env, roles[1..], Pass(cfg, env, roles[0], w).0, taskId);
    }
  }

  lemma AdvanceKeepsClosed(cfg: Config, env: Env, v: World, taskId: string)
    requires !CanPublishOf(v.store, taskId)
    ensures !CanPublishOf(Advance(cfg, env, v).store, taskId)
  {
    if BoxesOrdered(v.boxes) {
      PassesKeepsClosed(cfg, env, PassOrder, v, taskId);
    }
  }

  /** A guard closed after `j` passes is still closed after any later pass,
      so from then on no review of the task publishes another aggregation. */
  lemma {:induction false} IterateKeepsClosed(cfg: Config, env: Env, w: World, j: nat, k: nat, taskId: string)
    requires j <= k
    requires !CanPublishOf(Iterate(cfg, env, w, j).store, taskId)
    ensures !CanPublishOf(Iterate(cfg, env, w, k).store, taskId)
    decreases k
  {
    if j < k {
      IterateKeepsClosed(cfg, env, w, j, k - 1, taskId);
      AdvanceKeepsClosed(cfg, env, Iterate(cfg, env, w, k - 1), taskId);
    }
  }

  // ---------------------------------------------------------------------------
  // A pass without work
  // ---------------------------------------------------------------------------

  /** The agent has no pending `.json` file. */
  predicate InboxEmpty(w: World, agent: string) {
    |JsonFiles(DirOf(w.boxes.inbox, agent))| == 0
  }

  /** No agent of `roles` has anything pending. */
  predicate AllEmpty(w: World, roles: seq<Role>) {
    forall i :: 0 <= i < |roles| ==> InboxEmpty(w, AgentOf(roles[i]))
  }

  /** No agent of the loop has anything pending. */
  predicate Idle(w: World) {
    InboxEmpty(w, "codex") && InboxEmpty(w, "claude") && InboxEmpty(w, "aggregator") && InboxEmpty(w, "orchestrator")
  }

  /** Every consumed message counts at least one action. */
  lemma {:induction false} LoopActions(cfg: Config, env: Env, role: Role, w: World, items: seq<Consumed>)
    requires Pending(w.boxes, AgentOf(role), items)
    ensures Loop(cfg, env, role, w, items).1 >= |items|
    decreases |items|
  {
    if |items| > 0 {
      var w1 := Step(cfg, env, role, w, items[0]).0;
      StepActions(cfg, env, role, w, items[0]);
      StepKeeps(cfg, env, role, w, items[0]);
      PendingTail(w.boxes, w1.boxes, AgentOf(role), items);
      LoopActions(cfg, env, role, w1, items[1..]);
    }
  }

  /** An agent's pass does nothing exactly when its inbox is empty. */
  lemma PassIdle(cfg: Config, env: Env, role: Role, w: World)
    requires BoxesOrdered(w.boxes)
    ensures Pass(cfg, env, role, w).1 == 0 <==> InboxEmpty(w, AgentOf(role))
    ensures InboxEmpty(w, AgentOf(role)) ==> Pass(cfg, env, role, w).0 == w
  {
    var items := ConsumeBoxes(w.boxes, AgentOf(role), ConsumeLimit);
    ConsumePending(w.boxes, AgentOf(role));
    LoopActions(cfg, env, role, w, items);
  }

  lemma {:induction false} PassesIdle(cfg: Config, env: Env, roles: seq<Role>, w: World)
    requires BoxesOrdered(w.boxes)
    ensures Passes(cfg, env, roles, w).1 == 0 <==> AllEmpty(w, roles)
    ensures AllEmpty(w, roles) ==> Passes(cfg, env, roles, w).0 == w
    decreases |roles|
  {
    if |roles| > 0 {
      var p := Pass(cfg, env, roles[0], w);
      PassIdle(cfg, env, roles[0], w);
      PassesIdle(cfg, env, roles[1..], p.0);
      if p.1 == 0 {
        assert AllEmpty(w, roles) <==> AllEmpty(w, roles[1..]) by {
          forall i | 0 <= i < |roles| - 1 ensures roles[1..][i] == roles[i + 1] {
          }
        }
      }
    }
  }

  /** A pass counts no action exactly when every inbox is empty, and then it
      changes nothing. */
  lemma OnePassIdle(cfg: Config, env: Env, w: World)
    requires BoxesOrdered(w.boxes)
    ensures OnePass(cfg, env, w).1 == 0 <==> Idle(w)
    ensures Idle(w) ==> OnePass(cfg, env, w).0 == w
  {
    PassesIdle(cfg, env, PassOrder, w);
    AllEmptyFour(w, PassOrder);
    assert AgentOf(PassOrder[0]) == "codex" && AgentOf(PassOrder[1]) == "claude";
    assert AgentOf(PassOrder[2]) == "aggregator" && AgentOf(PassOrder[3]) == "orchestrator";
  }

  /** Four agents' inboxes are empty when each of them is. */
  lemma AllEmptyFour(w: World, roles: seq<Role>)
    requires |roles| == 4
    ensures AllEmpty(w, roles) <==>
              InboxEmpty(w, AgentOf(roles[0])) && InboxEmpty(w, AgentOf(roles[1])) &&
              InboxEmpty(w, AgentOf(roles[2])) && InboxEmpty(w, AgentOf(roles[3]))
  {
  }

  lemma QuietIsFixed(cfg: Config, env: Env, v: World)
    requires PassCount(cfg, env, v) == 0
    ensures Advance(cfg, env, v) == v
  {
    if BoxesOrdered(v.boxes) {
      OnePassIdle(cfg, env, v);
    }
  }

  /** After the first pass without work, every later pass finds the same
      world and does nothing either: stopping there loses nothing. */
  lemma {:induction false} QuietStaysQuiet(cfg: Config, env: Env, w: World, k: nat, j: nat)
    requires k <= j
    requires PassActions(cfg, env, w, k) == 0
    ensures Iterate(cfg, env, w, j) == Iterate(cfg, env, w, k)
    ensures PassActions(cfg, env, w, j) == 0
    decreases j
  {
    if k < j {
      QuietStaysQuiet(cfg, env, w, k, j - 1);
      QuietIsFixed(cfg, env, Iterate(cfg, env, w, k));
    }
  }

  /** From pass `k` on, every pass finds the same world. */
  ghost predicate Settled(cfg: Config, env: Env, w: World, k: nat) {
    forall j :: k <= j ==> Iterate(cfg, env, w, j) == Iterate(cfg, env, w, k)
  }

  /** Each of the first `n` passes did something. */
  ghost predicate Busy(cfg: Config, env: Env, w: World, n: nat) {
    forall p :: 0 <= p < n ==> PassActions(cfg, env, w, p) > 0
  }

  /** Each of the first `n` passes but the last did something. */
  ghost predicate BusyButLast(cfg: Config, env: Env, w: World, n: nat) {
    forall p :: 0 <= p && p + 1 < n ==> PassActions(cfg, env, w, p) > 0
  }

  /** One more pass keeps every pass but the last busy, and all of them when it did something. */
  lemma BusyGrows(cfg: Config, env: Env, w: World, k: nat)
    requires Busy(cfg, env, w, k)
    ensures BusyButLast(cfg, env, w, k + 1)
    ensures PassActions(cfg, env, w, k) > 0 ==> Busy(cfg, env, w, k + 1)
  {
  }

  /** The `n`th pass did nothing, and the world it found is the world for good. */
  ghost predicate Quiet(cfg: Config, env: Env, w: World, n: nat) {
    0 < n && PassActions(cfg, env, w, n - 1) == 0 && Settled(cfg, env, w, n - 1)
  }

  /** Once a pass did nothing, the world it found is the world for good. */
  lemma QuietSettles(cfg: Config, env: Env, w: World, k: nat)
    requires PassActions(cfg, env, w, k) == 0
    ensures Settled(cfg, env, w, k)
  {
    forall j | k <= j ensures Iterate(cfg, env, w, j) == Iterate(cfg, env, w, k) {
      QuietStaysQuiet(cfg, env, w, k, j);
    }
  }

  // ---------------------------------------------------------------------------
  // What the runtime publishes passes its own gate
  // ---------------------------------------------------------------------------

  /** An envelope passes validation after the mailbox file when it passed
      before and its payload is a JSON value. */
  lemma StoredAccepted(cfg: Config, env: Env, x: Envelope)
    requires WellFormed(x.payload) && Get(x.payload, "task_id") == Str(x.taskId)
    requires SignatureValid(env.hash, x) && SenderConsistent(x)
    requires RuntimeValidation.SenderAllowedByType(x.msgType, x.senderId) && RouteAllowed("orchestrator", x)
    ensures Check(cfg, env, Stored(x)) == Valid
  {
    StoredSignature(env.hash, x);
    GetNormalize(x.payload, "task_id");
    NormalizeIsStr(Get(x.payload, "task_id"), x.taskId);
  }

  /** Whatever path the reviewer takes, its answer is a JSON value naming the
      assignment's task. */
  lemma ReviewPayloadNamesTask(cfg: Config, env: Env, id: string, e: Envelope, t: nat)
    ensures var p := ReviewPayloadFor(cfg, env, id, e, t).0;
      WellFormed(p) && Get(p, "task_id") == Str(e.taskId)
  {
    match cfg.mode
    case Deterministic => DeterministicAnswer(cfg, env, id, e, t);
    case Cli =>
      if env.cli(id, e).CliPayload? {
        CliPayloadAnswer(cfg, env, id, e, t);
      } else {
        CliFailureAnswer(cfg, env, id, e, t);
      }
  }

  /** A reviewer's answer, read back from the aggregator's inbox, passes
      validation: its payload names the task and its signature survives the
      JSON round trip. */
  lemma ReviewAccepted(cfg: Config, env: Env, id: string, t: nat, e: Envelope)
    requires id == "codex" || id == "claude"
    ensures Check(cfg, env, Stored(ReviewEnvelope(cfg, env, id, t, e).0)) == Valid
  {
    ReviewPayloadNamesTask(cfg, env, id, e, t);
    var p := ReviewPayloadFor(cfg, env, id, e, t);
    CreatedSigned(env, p.1, e.taskId, id, "aggregator", "review_result", p.0, e.stateVersion + 1, Some(e.msgId));
    StoredAccepted(cfg, env, ReviewEnvelope(cfg, env, id, t, e).0);
  }

  /** The aggregation, read back from the orchestrator's inbox, passes
      validation. */
  lemma AggregationAccepted(cfg: Config, env: Env, t: nat, e: Envelope, reviews: Reviews)
    ensures Check(cfg, env, Stored(AggregationEnvelope(cfg, env, t, e, reviews).0)) == Valid
  {
    AggregationPayload(cfg, env, t, e, reviews);
    var rows := RequiredRows(cfg.requiredAgents, reviews);
    var payload := AggregationObject(e.taskId, cfg.requiredAgents, Sort(ReviewerIds(reviews)), Decide(rows),
                                     env.iso(t), SourceIds(rows));
    CreatedSigned(env, t + 1, e.taskId, "aggregator", "orchestrator", "aggregation_result", payload,
                  e.stateVersion + 1, Some(e.msgId));
    StoredAccepted(cfg, env, AggregationEnvelope(cfg, env, t, e, reviews).0);
  }
}
