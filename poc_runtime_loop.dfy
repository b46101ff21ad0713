/** The runtime object: a mailbox, a state store and the counter of input
    readings, driven by the methods of the proof-of-concept runtime. Each
    method is proved to do what the functions of `PocRuntime` say. */
module RuntimeLoop {
  import opened Wrappers
  import opened JsonValue
  import opened StringOrder
  import opened EnvelopePolicy
  import opened FileMailbox
  import opened FileStateStore
  import opened ReviewPayloads
  import opened PocRuntime
  import RuntimeValidation

  // ---------------------------------------------------------------------------
  // Seeding and the test injections, as values
  // ---------------------------------------------------------------------------

  /** What `captureReviewInput` hands to `seedTask`: the artifact path, the
      excerpt and where the input came from. */
  datatype ReviewInput = ReviewInput(ref: string, excerpt: string, source: string)

  /** An absent model hint is an `undefined` property, which the JSON file drops. */
  function HintValue(hint: Option<string>): Value {
    match hint
    case Some(h) => Str(h)
    case None => Undefined
  }

  /** The payload of the assignment sent to `reviewerId`. */
  function AssignmentObject(cfg: Config, taskId: string, input: ReviewInput, reviewerId: string,
                            instruction: string): Value {
    Obj([("review_request_ref", Str("artifact://" + taskId + "/review-request.md")),
         ("review_input_ref", Str(input.ref)),
         ("review_input_source", Str(input.source)),
         ("review_input_excerpt", Str(input.excerpt)),
         ("reviewer_model_hint", HintValue(HintFor(cfg, reviewerId))),
         ("required_agents", StrArr(cfg.requiredAgents)),
         ("instruction", Str(instruction))])
  }

  /** The `task_assignment` the orchestrator sends to `reviewerId`, state
      version one and no parent. */
  function Assignment(cfg: Config, env: Env, t: nat, taskId: string, input: ReviewInput, reviewerId: string,
                      instruction: string): (r: (Envelope, nat))
    ensures r.1 == t + 3 && r.0.msgId == env.uuid(t + 1)
  {
    PocRuntime.CreateEnvelope(env, t, taskId, "orchestrator", reviewerId, "task_assignment",
                              AssignmentObject(cfg, taskId, input, reviewerId, instruction), 1, None)
  }

  /** One turn of `seedTask`: the assignment for `reviewerId`, published,
      and its message id. */
  function SeedOne(cfg: Config, env: Env, w: World, taskId: string, instruction: string, input: ReviewInput,
                   reviewerId: string): (r: (World, string))
    ensures r.0.tick == w.tick + 5 && r.1 == env.uuid(w.tick + 1)
  {
    var a := Assignment(cfg, env, w.tick, taskId, input, reviewerId, instruction);
    var id := a.0.msgId;
    assert id == env.uuid(w.tick + 1);
    (PublishBuilt(env, w, a), id)
  }

  /** The loop of `seedTask` over `reviewers`: one published assignment each,
      and the message ids in that order. */
  function Seed(cfg: Config, env: Env, w: World, taskId: string, instruction: string, input: ReviewInput,
                reviewers: seq<string>): (r: (World, seq<string>))
    decreases |reviewers|
  {
    if |reviewers| == 0 then (w, [])
    else
      var s := SeedOne(cfg, env, w, taskId, instruction, input, reviewers[0]);
      var rest := Seed(cfg, env, s.0, taskId, instruction, input, reviewers[1..]);
      (rest.0, [s.1] + rest.1)
  }

  /** The loop from the `i`th reviewer on is its turn, then the loop from the next one. */
  lemma SeedTurn(cfg: Config, env: Env, w: World, taskId: string, instruction: string, input: ReviewInput,
                 reviewers: seq<string>, i: nat)
    requires i < |reviewers|
    ensures var s := SeedOne(cfg, env, w, taskId, instruction, input, reviewers[i]);
      && Seed(cfg, env, w, taskId, instruction, input, reviewers[i..]).0
         == Seed(cfg, env, s.0, taskId, instruction, input, reviewers[i + 1..]).0
      && Seed(cfg, env, w, taskId, instruction, input, reviewers[i..]).1
         == [s.1] + Seed(cfg, env, s.0, taskId, instruction, input, reviewers[i + 1..]).1
  {
    assert reviewers[i..][0] == reviewers[i] && reviewers[i..][1..] == reviewers[i + 1..];
  }

  /** At the `i`th reviewer with `ids` sent: the loop from there ends in
      `allW` and completes `ids` to `allIds`. */
  ghost predicate SeedRest(cfg: Config, env: Env, w: World, taskId: string, instruction: string, input: ReviewInput,
                           reviewers: seq<string>, i: nat, ids: seq<string>, allW: World, allIds: seq<string>) {
    && i <= |reviewers|
    && Seed(cfg, env, w, taskId, instruction, input, reviewers[i..]).0 == allW
    && ids + Seed(cfg, env, w, taskId, instruction, input, reviewers[i..]).1 == allIds
  }

  /** The turn of the `i`th reviewer moves the loop on by one reviewer. */
  lemma SeedRestStep(cfg: Config, env: Env, w: World, taskId: string, instruction: string, input: ReviewInput,
                     reviewers: seq<string>, i: nat, ids: seq<string>, allW: World, allIds: seq<string>)
    requires i < |reviewers| && SeedRest(cfg, env, w, taskId, instruction, input, reviewers, i, ids, allW, allIds)
    ensures var s := SeedOne(cfg, env, w, taskId, instruction, input, reviewers[i]);
      SeedRest(cfg, env, s.0, taskId, instruction, input, reviewers, i + 1, ids + [s.1], allW, allIds)
  {
    SeedTurn(cfg, env, w, taskId, instruction, input, reviewers, i);
    var s := SeedOne(cfg, env, w, taskId, instruction, input, reviewers[i]);
    var rest := Seed(cfg, env, s.0, taskId, instruction, input, reviewers[i + 1..]).1;
    AppendOne(ids, s.1, rest);
  }

  lemma AppendOne<T>(xs: seq<T>, x: T, ys: seq<T>)
    ensures xs + ([x] + ys) == (xs + [x]) + ys
  {
  }

  /** The review `injectTaskIdMismatchReview` forges: signed by `codex` for
      the task `taskId`, with a payload that names `payloadTaskId`. */
  function MismatchObject(taskId: string, payloadTaskId: string, now: string): Value {
    Obj([("schema_version", Num(1)),
         ("task_id", Str(payloadTaskId)),
         ("model", Str("gpt-5-codex")),
         ("verdict", Str("PASS")),
         ("blocking", Arr([])),
         ("non_blocking", Arr([])),
         ("summary", Str("malformed message for validation test")),
         ("confidence", Str("high")),
         ("next_action", Str("proceed")),
         ("generated_at", Str(now)),
         ("raw_output_ref", Str("artifact://" + taskId + "/malformed"))])
  }

  function MismatchReview(env: Env, t: nat, taskId: string, payloadTaskId: string): (Envelope, nat) {
    PocRuntime.CreateEnvelope(env, t + 1, taskId, "codex", "aggregator", "review_result",
                              MismatchObject(taskId, payloadTaskId, env.iso(t)), 9, None)
  }

  // ---------------------------------------------------------------------------
  // Properties of seeding and injection
  // ---------------------------------------------------------------------------

  /** The `i`th of `ids` is the UUID read at tick `t + 5 * i + 1`. */
  ghost predicate IdsFrom(uuid: nat -> string, t: nat, ids: seq<string>) {
    forall i :: 0 <= i < |ids| ==> ids[i] == uuid(t + 5 * i + 1)
  }

  /** The id read at `t + 1` followed by ids read from `t + 5` on. */
  lemma ShiftIds(uuid: nat -> string, t: nat, t1: nat, rest: seq<string>)
    requires t1 == t + 5 && IdsFrom(uuid, t1, rest)
    ensures IdsFrom(uuid, t, [uuid(t + 1)] + rest)
  {
    var ids := [uuid(t + 1)] + rest;
    forall i | 0 <= i < |ids| ensures ids[i] == uuid(t + 5 * i + 1) {
      if i > 0 {
        assert t1 + 5 * (i - 1) + 1 == t + 5 * i + 1;
        assert ids[i] == rest[i - 1];
      }
    }
  }

  /** Each assignment takes five readings (clock, two UUIDs, then the file
      name's clock and UUID); the message ids are the first UUID of each. */
  lemma {:induction false} SeedIds(cfg: Config, env: Env, w: World, taskId: string, instruction: string,
                                   input: ReviewInput, reviewers: seq<string>)
    ensures var r := Seed(cfg, env, w, taskId, instruction, input, reviewers);
      r.0.tick == w.tick + 5 * |reviewers| && |r.1| == |reviewers| && IdsFrom(env.uuid, w.tick, r.1)
    decreases |reviewers|
  {
    if |reviewers| > 0 {
      var s := SeedOne(cfg, env, w, taskId, instruction, input, reviewers[0]);
      SeedHead(cfg, env, w, taskId, instruction, input, reviewers);
      SeedIds(cfg, env, s.0, taskId, instruction, input, reviewers[1..]);
      ShiftIds(env.uuid, w.tick, s.0.tick, Seed(cfg, env, s.0, taskId, instruction, input, reviewers[1..]).1);
    }
  }

  /** The first reviewer's turn: five readings, and the first message id is
      the UUID read right after the clock. */
  lemma SeedHead(cfg: Config, env: Env, w: World, taskId: string, instruction: string, input: ReviewInput,
                 reviewers: seq<string>)
    requires |reviewers| > 0
    ensures var s := SeedOne(cfg, env, w, taskId, instruction, input, reviewers[0]);
      && s.0.tick == w.tick + 5
      && Seed(cfg, env, w, taskId, instruction, input, reviewers).0
         == Seed(cfg, env, s.0, taskId, instruction, input, reviewers[1..]).0
      && Seed(cfg, env, w, taskId, instruction, input, reviewers).1
         == [env.uuid(w.tick + 1)] + Seed(cfg, env, s.0, taskId, instruction, input, reviewers[1..]).1
  {
  }

  /** With a UUID source that never repeats, the two seeded assignments have
      different message ids. */
  lemma SeedIdsDistinct(cfg: Config, env: Env, w: World, taskId: string, instruction: string, input: ReviewInput)
    requires forall t1: nat, t2: nat :: t1 != t2 ==> env.uuid(t1) != env.uuid(t2)
    ensures var ids := Seed(cfg, env, w, taskId, instruction, input, Reviewers).1;
      |ids| == 2 && ids[0] != ids[1]
  {
    SeedIds(cfg, env, w, taskId, instruction, input, Reviewers);
  }

  lemma AssignmentWellFormed(cfg: Config, taskId: string, input: ReviewInput, reviewerId: string, instruction: string)
    ensures WellFormed(AssignmentObject(cfg, taskId, input, reviewerId, instruction))
    ensures Get(AssignmentObject(cfg, taskId, input, reviewerId, instruction), "instruction") == Str(instruction)
    ensures Get(AssignmentObject(cfg, taskId, input, reviewerId, instruction), "task_id") == Undefined
  {
    var fs := AssignmentObject(cfg, taskId, input, reviewerId, instruction).fields;
    var ks := ["review_request_ref", "review_input_ref", "review_input_source", "review_input_excerpt",
               "reviewer_model_hint", "required_agents", "instruction"];
    assert Keys(fs) == ks;
    KeysDistinct(fs, ks);
    LookupAt(fs, 6);
    LookupAbsent(fs, "task_id");
  }

  /** The reviewer reads back, from its inbox file, the instruction the
      orchestrator seeded; the deterministic reviewer's force-fail marker is
      looked for in exactly that text. */
  lemma AssignmentInstruction(cfg: Config, env: Env, t: nat, taskId: string, input: ReviewInput, reviewerId: string,
                              instruction: string)
    ensures var a := Assignment(cfg, env, t, taskId, input, reviewerId, instruction).0;
      && a.to == reviewerId && a.senderId == "orchestrator" && a.msgType == "task_assignment"
      && a.stateVersion == 1 && a.parentId == None
      && InstructionOf(Stored(a).payload) == instruction
  {
    var p := AssignmentObject(cfg, taskId, input, reviewerId, instruction);
    AssignmentWellFormed(cfg, taskId, input, reviewerId, instruction);
    GetNormalize(p, "instruction");
  }

  /** A seeded assignment passes the reviewer's gate exactly when
      `task_assignment` is not among the types whose payload must name the
      task: the assignment payload has no `task_id`. */
  lemma AssignmentChecked(cfg: Config, env: Env, t: nat, taskId: string, input: ReviewInput, reviewerId: string,
                          instruction: string)
    ensures var a := Assignment(cfg, env, t, taskId, input, reviewerId, instruction).0;
      Check(cfg, env, Stored(a)) == Valid <==>
        !(cfg.requireTaskIdMatch && "task_assignment" in cfg.taskIdMatchTypes)
  {
    var a := Assignment(cfg, env, t, taskId, input, reviewerId, instruction).0;
    AssignmentWellFormed(cfg, taskId, input, reviewerId, instruction);
    StoredSignature(env.hash, a);
    GetNormalize(a.payload, "task_id");
  }

  lemma MismatchWellFormed(taskId: string, payloadTaskId: string, now: string)
    ensures WellFormed(MismatchObject(taskId, payloadTaskId, now))
    ensures Get(MismatchObject(taskId, payloadTaskId, now), "task_id") == Str(payloadTaskId)
  {
    var fs := MismatchObject(taskId, payloadTaskId, now).fields;
    assert Keys(fs) == ReviewKeys;
    ReviewKeysDistinct();
    KeysDistinct(fs, ReviewKeys);
    assert |fs[0].0| != |fs[1].0|;
    LookupFirst(fs, 1, "task_id");
  }

  /** The forged review is rejected with `TASK_ID_MISMATCH` exactly when the
      two task ids differ and reviews are checked for it; otherwise it passes. */
  lemma MismatchRejected(cfg: Config, env: Env, t: nat, taskId: string, payloadTaskId: string)
    ensures Check(cfg, env, Stored(MismatchReview(env, t, taskId, payloadTaskId).0)) ==
      if cfg.requireTaskIdMatch && "review_result" in cfg.taskIdMatchTypes && payloadTaskId != taskId
      then Invalid("TASK_ID_MISMATCH", "envelope.task_id must equal payload.task_id")
      else Valid
  {
    var e := MismatchReview(env, t, taskId, payloadTaskId).0;
    MismatchWellFormed(taskId, payloadTaskId, env.iso(t));
    StoredSignature(env.hash, e);
    GetNormalize(e.payload, "task_id");
    NormalizeIsStr(Get(e.payload, "task_id"), taskId);
  }

  /** The aggregator's work when the quorum is missing or the guard is closed. */
  lemma AggregationClosed(cfg: Config, env: Env, w: World, e: Envelope)
    requires var s1 := RecordReviewState(w.store, e.taskId, e.senderId, e.payload, e.msgId);
      !Quorum(cfg.requiredAgents, Sort(ReviewerIds(ReviewsOf(s1, e.taskId)))) || !CanPublishOf(s1, e.taskId)
    ensures Aggregation(cfg, env, w, e).0 == w.(store := RecordReviewState(w.store, e.taskId, e.senderId, e.payload, e.msgId))
    ensures Aggregation(cfg, env, w, e).1 == 1
  {
  }

  /** The aggregator's work when it publishes: the aggregation is built from
      tick `w.tick` on, published, and the guard closed at the tick after. */
  lemma AggregationOpen(cfg: Config, env: Env, w: World, e: Envelope)
    requires var s1 := RecordReviewState(w.store, e.taskId, e.senderId, e.payload, e.msgId);
      Quorum(cfg.requiredAgents, Sort(ReviewerIds(ReviewsOf(s1, e.taskId)))) && CanPublishOf(s1, e.taskId)
    ensures var s1 := RecordReviewState(w.store, e.taskId, e.senderId, e.payload, e.msgId);
      Aggregation(cfg, env, w, e).0 == AggregationPublish(cfg, env, w.(store := s1), e, ReviewsOf(s1, e.taskId))
    ensures Aggregation(cfg, env, w, e).1 == 2
  {
  }

  /** What the loop still does from item `i` on: it ends in world `restW`
      and counts `restN` actions. */
  ghost predicate Rest(cfg: Config, env: Env, role: Role, w: World, items: seq<Consumed>, i: nat, restW: World,
                       restN: nat) {
    && i <= |items| && Pending(w.boxes, AgentOf(role), items[i..])
    && Loop(cfg, env, role, w, items[i..]).0 == restW && Loop(cfg, env, role, w, items[i..]).1 == restN
  }

  /** A step: the gate, then the agent's act on a first-seen message of the
      expected type, or one action otherwise. */
  lemma StepSplit(cfg: Config, env: Env, role: Role, w: World, item: Consumed)
    requires Has(DirOf(w.boxes.inbox, item.agentId), item.name)
    ensures var g := PocRuntime.Admit(cfg, env, w, item, Expected(role));
      Step(cfg, env, role, w, item) == if g.Fresh? then Act(cfg, env, role, g.next, item.envelope) else (g.next, 1)
  {
  }

  /** A turn of the loop: what the loop does from item `i` on is the step
      of item `i`, then what it does from item `i + 1` on. */
  lemma RestTurn(cfg: Config, env: Env, role: Role, w: World, items: seq<Consumed>, i: nat, restW: World,
                 restN: nat)
    requires Rest(cfg, env, role, w, items, i, restW, restN) && i < |items|
    ensures Has(DirOf(w.boxes.inbox, items[i].agentId), items[i].name)
    ensures var r1 := Step(cfg, env, role, w, items[i]);
      r1.1 <= restN && Rest(cfg, env, role, r1.0, items, i + 1, restW, restN - r1.1)
  {
    var tail := items[i..];
    assert tail[0] == items[i] && tail[1..] == items[i + 1..];
    LoopIsTurn(cfg, env, role, w, tail);
    TurnStep(cfg, env, role, w, tail);
  }

  /** Pass number `k` over an ordered world is one `runOnePass`. */
  lemma PassNumber(cfg: Config, env: Env, w: World, k: nat)
    requires BoxesOrdered(Iterate(cfg, env, w, k).boxes)
    ensures Iterate(cfg, env, w, k + 1) == OnePass(cfg, env, Iterate(cfg, env, w, k)).0
    ensures PassActions(cfg, env, w, k) == OnePass(cfg, env, Iterate(cfg, env, w, k)).1
    ensures TotalActions(cfg, env, w, k + 1) == TotalActions(cfg, env, w, k) + PassActions(cfg, env, w, k)
  {
  }

  // ---------------------------------------------------------------------------
  // The runtime object
  // ---------------------------------------------------------------------------

  class Runtime {
    const cfg: Config
    const env: Env
    const mailbox: Mailbox
    const store: StateStore
    /** The number of clock and UUID readings so far. */
    var tick: nat

    function Snapshot(): World
      reads this, mailbox, store
    {
      World(mailbox.State(), store.State(), tick)
    }

    ghost predicate Valid()
      reads this, mailbox, store
    {
      mailbox.Valid() && store.Valid()
    }

    /** The constructor followed by `init`: every agent's directories exist
        and are empty, the store holds what its files held. */
    constructor (o: RuntimeOptions, env: Env, log: seq<ReceiptRow>, rows: seq<QuarantineRow>,
                 cache: map<string, Reviews>, tasks: map<string, TaskRow>)
      requires forall t :: t in cache ==> DistinctIds(cache[t])
      ensures Valid()
      ensures this.cfg == ConfigOf(o) && this.env == env
      ensures Snapshot() == World(FreshBoxes(Agents), Loaded(log, rows, cache, tasks), 0)
    {
      cfg := ConfigOf(o);
      this.env := env;
      mailbox := new Mailbox(Agents);
      store := new StateStore(log, rows, cache, tasks);
      tick := 0;
    }

    /** `createEnvelope`. */
    method CreateEnvelope(taskId: string, senderId: string, to: string, msgType: string, payload: Value,
                          stateVersion: int, parentId: Option<string>) returns (e: Envelope)
      modifies this
      ensures e == PocRuntime.CreateEnvelope(env, old(tick), taskId, senderId, to, msgType, payload,
                                             stateVersion, parentId).0
      ensures tick == PocRuntime.CreateEnvelope(env, old(tick), taskId, senderId, to, msgType, payload,
                                                stateVersion, parentId).1
    {
      var createdAt := env.iso(tick);
      var msgId := env.uuid(tick + 1);
      var nonce := env.uuid(tick + 2);
      tick := tick + 3;
      var unsigned := Envelope(msgId, 1, taskId, senderId, senderId + "-instance-1", "k-" + senderId + "-v1",
                               createdAt, nonce, "", senderId, to, msgType, stateVersion, 1, createdAt, payload,
                               ParentOf(parentId));
      e := Sign(env.hash, unsigned);
    }

    /** `mailbox.publish`, with the clock and UUID readings of its file name. */
    method Post(e: Envelope)
      requires Valid()
      modifies this, mailbox
      ensures Valid()
      ensures Snapshot() == Publish(env, old(Snapshot()), e)
    {
      var ms := env.ms(tick);
      var uuid := env.uuid(tick + 1);
      tick := tick + 2;
      var _ := mailbox.Publish(e, ms, uuid);
    }

    /** `handleInvalid`. */
    method HandleInvalid(item: Consumed, v: Validation)
      requires Valid() && v.Invalid?
      requires Has(DirOf(mailbox.inbox, item.agentId), item.name)
      modifies this, mailbox, store
      ensures Valid()
      ensures Snapshot() == PocRuntime.HandleInvalid(env, old(Snapshot()), item, v)
    {
      store.AppendQuarantine(RejectionOf(item.envelope, v), env.iso(tick));
      mailbox.Nack(item, v.code, env.iso(tick + 1));
      tick := tick + 2;
    }

    /** The head of each processing loop: validation, the receipt and the ack.
        `admitted` tells whether the agent goes on to act. */
    method Admit(item: Consumed, expected: string) returns (admitted: bool)
      requires Valid()
      requires Has(DirOf(mailbox.inbox, item.agentId), item.name)
      modifies this, mailbox, store
      ensures Valid()
      ensures Snapshot() == PocRuntime.Admit(cfg, env, old(Snapshot()), item, expected).next
      ensures admitted == PocRuntime.Admit(cfg, env, old(Snapshot()), item, expected).Fresh?
    {
      var e := item.envelope;
      var v := Check(cfg, env, e);
      if v.Invalid? {
        HandleInvalid(item, v);
        return false;
      }
      var inserted := store.InsertReceipt(e.taskId, e.senderId, e.msgId, e.msgType, env.iso(tick));
      if inserted {
        tick := tick + 1;
      }
      mailbox.Ack(item);
      admitted := inserted && e.msgType == expected;
    }

    /** The review payload of `processReviewer`, by reviewer mode. */
    method ReviewPayload(reviewerId: string, e: Envelope) returns (payload: Value)
      modifies this
      ensures (payload, tick) == ReviewPayloadFor(cfg, env, reviewerId, e, old(tick))
    {
      var hint := HintFor(cfg, reviewerId);
      match cfg.mode
      case Deterministic =>
        var now := env.iso(tick);
        var ms := env.ms(tick + 1);
        tick := tick + 2;
        payload := DeterministicReview(reviewerId, e.taskId, InstructionOf(e.payload), hint, now, ms);
      case Cli =>
        match env.cli(reviewerId, e)
        case CliPayload(p, ref) =>
          payload := NormalizeReviewPayload(reviewerId, e.taskId, p, ref, hint, env.iso(tick));
          if NeedsClock(p) {
            tick := tick + 1;
          }
        case CliFailure(message, ref) =>
          payload := CliFailureReview(reviewerId, e.taskId, Classify(message), "Error: " + message, ref, hint,
                                      env.iso(tick));
          tick := tick + 1;
        case CliCrash(text) =>
          var ms := env.ms(tick);
          var now := env.iso(tick + 1);
          tick := tick + 2;
          payload := CliFailureReview(reviewerId, e.taskId, ExecutionErrorCode, text, CrashRef(e.taskId, reviewerId, ms),
                                      hint, now);
    }

    /** A reviewer answers a first-seen assignment with a `review_result`. */
    method Review(reviewerId: string, e: Envelope)
      requires Valid()
      modifies this, mailbox
      ensures Valid()
      ensures Snapshot() == PocRuntime.Review(cfg, env, reviewerId, old(Snapshot()), e)
    {
      ghost var w := Snapshot();
      ghost var built := ReviewEnvelope(cfg, env, reviewerId, w.tick, e);
      var payload := ReviewPayload(reviewerId, e);
      var answer := CreateEnvelope(e.taskId, reviewerId, "aggregator", "review_result", payload,
                                   e.stateVersion + 1, Some(e.msgId));
      assert (answer, tick) == built;
      assert Snapshot() == w.(tick := built.1);
      Post(answer);
    }

    /** The aggregator's work on a first-seen review; two actions when it
        publishes, one otherwise. */
    method Aggregate(e: Envelope) returns (actions: nat)
      requires Valid()
      modifies this, mailbox, store
      ensures Valid()
      ensures Snapshot() == Aggregation(cfg, env, old(Snapshot()), e).0
      ensures actions == Aggregation(cfg, env, old(Snapshot()), e).1
    {
      ghost var w := Snapshot();
      store.RecordReview(e.taskId, e.senderId, e.payload, e.msgId);
      var reviews := store.GetReviews(e.taskId);
      var received := Sort(ReviewerIds(reviews));
      if !Quorum(cfg.requiredAgents, received) {
        AggregationClosed(cfg, env, w, e);
        return 1;
      }
      if !store.CanPublishAggregation(e.taskId) {
        AggregationClosed(cfg, env, w, e);
        return 1;
      }
      AggregationOpen(cfg, env, w, e);
      PublishAggregation(e, reviews);
      actions := 2;
    }

    /** The aggregation envelope, from the current tick on. */
    method BuildAggregation(e: Envelope, reviews: Reviews) returns (result: Envelope)
      modifies this
      ensures result == AggregationEnvelope(cfg, env, old(tick), e, reviews).0
      ensures tick == AggregationEnvelope(cfg, env, old(tick), e, reviews).1
    {
      ghost var t := tick;
      var rows := RequiredRows(cfg.requiredAgents, reviews);
      var now := env.iso(tick);
      tick := tick + 1;
      var payload := AggregationObject(e.taskId, cfg.requiredAgents, Sort(ReviewerIds(reviews)), Decide(rows), now,
                                       SourceIds(rows));
      AggregationEnvelopeOf(cfg, env, t, e, reviews);
      result := CreateEnvelope(e.taskId, "aggregator", "orchestrator", "aggregation_result", payload,
                               e.stateVersion + 1, Some(e.msgId));
    }

    /** Publish the aggregation and close the guard of its task. */
    method PublishAggregation(e: Envelope, reviews: Reviews)
      requires Valid()
      modifies this, mailbox, store
      ensures Valid()
      ensures Snapshot() == AggregationPublish(cfg, env, old(Snapshot()), e, reviews)
    {
      ghost var w := Snapshot();
      ghost var ae := AggregationEnvelope(cfg, env, tick, e, reviews);
      var result := BuildAggregation(e, reviews);
      assert Snapshot() == w.(tick := ae.1);
      Post(result);
      ghost var w2 := Snapshot();
      assert w2 == PublishBuilt(env, w, ae);
      store.MarkAggregationPublished(e.taskId, result.msgId, env.iso(tick));
      ghost var w3 := World(w2.boxes, MarkAggregationPublishedState(w.store, e.taskId, ae.0.msgId, env.iso(w2.tick)),
                            w2.tick + 1);
      tick := tick + 1;
      AggregationPublishOf(cfg, env, w, e, reviews);
      assert Snapshot() == w3;
    }

    /** The orchestrator records the decision of a first-seen aggregation. */
    method Settle(e: Envelope)
      requires Valid()
      modifies this, store
      ensures Valid()
      ensures Snapshot() == PocRuntime.Settle(env, old(Snapshot()), e)
    {
      store.SetFinalDecision(e.taskId, DecisionOf(e, env.iso(tick)), env.iso(tick + 1));
      tick := tick + 2;
    }

    /** One turn of a processing loop. */
    method HandleMessage(role: Role, item: Consumed) returns (actions: nat)
      requires Valid()
      requires Has(DirOf(mailbox.inbox, item.agentId), item.name)
      modifies this, mailbox, store
      ensures Valid()
      ensures (Snapshot(), actions) == Step(cfg, env, role, old(Snapshot()), item)
    {
      StepSplit(cfg, env, role, Snapshot(), item);
      var admitted := Admit(item, Expected(role));
      if !admitted {
        return 1;
      }
      match role
      case ReviewerRole(id) =>
        Review(id, item.envelope);
        actions := 2;
      case AggregatorRole =>
        actions := Aggregate(item.envelope);
      case OrchestratorRole =>
        Settle(item.envelope);
        actions := 2;
    }

    /** The body of the loop: item `i` of the consumed items, after which
        the loop has the rest to do. */
    method HandleItem(role: Role, items: seq<Consumed>, i: nat, ghost restW: World, ghost restN: nat)
      returns (actions: nat)
      requires Valid() && i < |items| && Rest(cfg, env, role, Snapshot(), items, i, restW, restN)
      modifies this, mailbox, store
      ensures Valid()
      ensures actions <= restN && Rest(cfg, env, role, Snapshot(), items, i + 1, restW, restN - actions)
    {
      RestTurn(cfg, env, role, Snapshot(), items, i, restW, restN);
      actions := HandleMessage(role, items[i]);
    }

    /** The loop `processReviewer`, `processAggregator` and
        `processOrchestrator` share: the first hundred pending messages of the
        role's agent, one turn each. */
    method Process(role: Role) returns (actions: nat)
      requires Valid()
      modifies this, mailbox, store
      ensures Valid()
      ensures Snapshot() == Pass(cfg, env, role, old(Snapshot())).0
      ensures actions == Pass(cfg, env, role, old(Snapshot())).1
    {
      ghost var w0 := Snapshot();
      var agent := AgentOf(role);
      var items := mailbox.Consume(agent, ConsumeLimit);
      ConsumePending(w0.boxes, agent);
      assert items[0..] == items;
      actions := HandleAll(role, items, Loop(cfg, env, role, w0, items).0, Loop(cfg, env, role, w0, items).1);
    }

    /** The turns over all of `items`, which the loop from the first item on
        ends in `restW` with `restN` actions. */
    method HandleAll(role: Role, items: seq<Consumed>, ghost restW: World, ghost restN: nat) returns (actions: nat)
      requires Valid() && Rest(cfg, env, role, Snapshot(), items, 0, restW, restN)
      modifies this, mailbox, store
      ensures Valid()
      ensures Snapshot() == restW && actions == restN
    {
      ghost var left := restN;
      actions := 0;
      var i := 0;
      while i < |items|
        invariant Valid()
        invariant Rest(cfg, env, role, Snapshot(), items, i, restW, left)
        invariant actions + left == restN
      {
        var a := HandleItem(role, items, i, restW, left);
        actions := actions + a;
        left := left - a;
        i := i + 1;
      }
      assert items[i..] == [];
    }

    method ProcessReviewer(reviewerId: string) returns (actions: nat)
      requires Valid()
      requires reviewerId == "codex" || reviewerId == "claude"
      modifies this, mailbox, store
      ensures Valid()
      ensures Snapshot() == Pass(cfg, env, ReviewerRole(reviewerId), old(Snapshot())).0
      ensures actions == Pass(cfg, env, ReviewerRole(reviewerId), old(Snapshot())).1
    {
      actions := Process(ReviewerRole(reviewerId));
    }

    method ProcessAggregator() returns (actions: nat)
      requires Valid()
      modifies this, mailbox, store
      ensures Valid()
      ensures Snapshot() == Pass(cfg, env, AggregatorRole, old(Snapshot())).0
      ensures actions == Pass(cfg, env, AggregatorRole, old(Snapshot())).1
    {
      actions := Process(AggregatorRole);
    }

    method ProcessOrchestrator() returns (actions: nat)
      requires Valid()
      modifies this, mailbox, store
      ensures Valid()
      ensures Snapshot() == Pass(cfg, env, OrchestratorRole, old(Snapshot())).0
      ensures actions == Pass(cfg, env, OrchestratorRole, old(Snapshot())).1
    {
      actions := Process(OrchestratorRole);
    }

    /** `runOnePass`: codex, claude, the aggregator, the orchestrator. */
    method RunOnePass() returns (actions: nat)
      requires Valid()
      modifies this, mailbox, store
      ensures Valid()
      ensures Snapshot() == OnePass(cfg, env, old(Snapshot())).0
      ensures actions == OnePass(cfg, env, old(Snapshot())).1
    {
      OnePassInTurn(cfg, env, Snapshot());
      var a1 := ProcessReviewer("codex");
      var a2 := ProcessReviewer("claude");
      var a3 := ProcessAggregator();
      var a4 := ProcessOrchestrator();
      actions := a1 + a2 + a3 + a4;
    }

    /** Pass number `k` from `w0`, by `runOnePass`. */
    method RunPass(ghost w0: World, ghost k: nat, ghost before: nat) returns (actions: nat)
      requires Valid() && Snapshot() == Iterate(cfg, env, w0, k)
      requires before == TotalActions(cfg, env, w0, k)
      requires Busy(cfg, env, w0, k)
      modifies this, mailbox, store
      ensures Valid()
      ensures Snapshot() == Iterate(cfg, env, w0, k + 1) && actions == PassActions(cfg, env, w0, k)
      ensures before + actions == TotalActions(cfg, env, w0, k + 1)
      ensures actions == 0 ==> Quiet(cfg, env, w0, k + 1)
      ensures BusyButLast(cfg, env, w0, k + 1)
      ensures actions > 0 ==> Busy(cfg, env, w0, k + 1)
    {
      PassNumber(cfg, env, w0, k);
      BusyGrows(cfg, env, w0, k);
      actions := RunOnePass();
      if actions == 0 {
        QuietSettles(cfg, env, w0, k);
      }
    }

    /** `runUntilStable`: passes until one does nothing, at most `maxPasses`
        of them. A pass that did nothing leaves every later pass with nothing
        to do, so stopping there loses nothing. */
    method RunUntilStable(maxPasses: int) returns (passes: nat, totalActions: nat)
      requires Valid()
      modifies this, mailbox, store
      ensures Valid()
      ensures passes <= maxPasses || passes == 0
      ensures 0 < maxPasses ==> 0 < passes
      ensures Snapshot() == Iterate(cfg, env, old(Snapshot()), passes)
      ensures totalActions == TotalActions(cfg, env, old(Snapshot()), passes)
      ensures passes < maxPasses ==> Quiet(cfg, env, old(Snapshot()), passes)
      ensures BusyButLast(cfg, env, old(Snapshot()), passes)
    {
      ghost var w0 := Snapshot();
      totalActions := 0;
      passes := 0;
      while passes < maxPasses
        invariant Valid()
        invariant passes <= maxPasses || passes == 0
        invariant Snapshot() == Iterate(cfg, env, w0, passes)
        invariant totalActions == TotalActions(cfg, env, w0, passes)
        invariant Busy(cfg, env, w0, passes) && BusyButLast(cfg, env, w0, passes)
        decreases maxPasses - passes
      {
        var actions := RunPass(w0, passes, totalActions);
        passes := passes + 1;
        totalActions := totalActions + actions;
        if actions == 0 {
          break;
        }
      }
    }

    /** One assignment of `seedTask`, built and published. */
    method Assign(taskId: string, instruction: string, input: ReviewInput, reviewerId: string)
      returns (msgId: string)
      requires Valid()
      modifies this, mailbox
      ensures Valid()
      ensures Snapshot() == SeedOne(cfg, env, old(Snapshot()), taskId, instruction, input, reviewerId).0
      ensures msgId == SeedOne(cfg, env, old(Snapshot()), taskId, instruction, input, reviewerId).1
    {
      var payload := AssignmentObject(cfg, taskId, input, reviewerId, instruction);
      var a := CreateEnvelope(taskId, "orchestrator", reviewerId, "task_assignment", payload, 1, None);
      Post(a);
      msgId := a.msgId;
    }

    /** One turn of the loop of `seedTask`. */
    method SeedItem(taskId: string, instruction: string, input: ReviewInput, reviewers: seq<string>, i: nat,
                    ids: seq<string>, ghost allW: World, ghost allIds: seq<string>) returns (id: string)
      requires Valid() && i < |reviewers|
      requires SeedRest(cfg, env, Snapshot(), taskId, instruction, input, reviewers, i, ids, allW, allIds)
      modifies this, mailbox
      ensures Valid()
      ensures SeedRest(cfg, env, Snapshot(), taskId, instruction, input, reviewers, i + 1, ids + [id], allW, allIds)
    {
      SeedRestStep(cfg, env, Snapshot(), taskId, instruction, input, reviewers, i, ids, allW, allIds);
      id := Assign(taskId, instruction, input, reviewers[i]);
    }

    /** The loop of `seedTask`: an assignment to each of `reviewers`, in order. */
    method SeedAll(taskId: string, instruction: string, input: ReviewInput, reviewers: seq<string>)
      returns (msgIds: seq<string>)
      requires Valid()
      modifies this, mailbox
      ensures Valid()
      ensures Snapshot() == Seed(cfg, env, old(Snapshot()), taskId, instruction, input, reviewers).0
      ensures msgIds == Seed(cfg, env, old(Snapshot()), taskId, instruction, input, reviewers).1
    {
      ghost var allW := Seed(cfg, env, Snapshot(), taskId, instruction, input, reviewers).0;
      ghost var allIds := Seed(cfg, env, Snapshot(), taskId, instruction, input, reviewers).1;
      assert reviewers[0..] == reviewers;
      msgIds := [];
      assert msgIds + allIds == allIds;
      var i := 0;
      while i < |reviewers|
        invariant Valid()
        invariant SeedRest(cfg, env, Snapshot(), taskId, instruction, input, reviewers, i, msgIds, allW, allIds)
      {
        var id := SeedItem(taskId, instruction, input, reviewers, i, msgIds, allW, allIds);
        msgIds := msgIds + [id];
        i := i + 1;
      }
      assert reviewers[i..] == [];
      assert msgIds + [] == msgIds;
    }

    /** `seedTask`: the review input is captured (one clock reading, for its
        meta section), then each reviewer gets an assignment. */
    method SeedTask(taskId: string, instruction: string, input: ReviewInput) returns (msgIds: seq<string>)
      requires Valid()
      modifies this, mailbox
      ensures Valid()
      ensures Snapshot() == Seed(cfg, env, old(Snapshot()).(tick := old(tick) + 1), taskId, instruction, input,
                                 Reviewers).0
      ensures msgIds == Seed(cfg, env, old(Snapshot()).(tick := old(tick) + 1), taskId, instruction, input,
                             Reviewers).1
    {
      ghost var w1 := Snapshot().(tick := tick + 1);
      tick := tick + 1;
      assert Snapshot() == w1;
      msgIds := SeedAll(taskId, instruction, input, Reviewers);
    }

    /** `duplicateFirstInboxMessage`: publishes again the first pending
        message of `agentId`, as read from its file. */
    method DuplicateFirstInboxMessage(agentId: string) returns (r: Option<string>)
      requires Valid()
      modifies this, mailbox
      ensures Valid()
      ensures var pending := ConsumeBoxes(old(Snapshot()).boxes, agentId, MaxSafeInteger);
        if |pending| == 0 then r == None && Snapshot() == old(Snapshot())
        else r == Some(pending[0].envelope.msgId) && Snapshot() == Publish(env, old(Snapshot()), pending[0].envelope)
    {
      var messages := mailbox.Peek(agentId);
      if |messages| == 0 {
        return None;
      }
      var duplicated := messages[0].envelope;
      Post(duplicated);
      r := Some(duplicated.msgId);
    }

    /** `injectTaskIdMismatchReview`. */
    method InjectTaskIdMismatchReview(taskId: string, payloadTaskId: string) returns (msgId: string)
      requires Valid()
      modifies this, mailbox
      ensures Valid()
      ensures msgId == MismatchReview(env, old(tick), taskId, payloadTaskId).0.msgId
      ensures Snapshot() == PublishBuilt(env, old(Snapshot()), MismatchReview(env, old(tick), taskId, payloadTaskId))
    {
      ghost var w0 := Snapshot();
      ghost var forged := MismatchReview(env, tick, taskId, payloadTaskId);
      var e := BuildMismatch(taskId, payloadTaskId);
      assert Snapshot() == w0.(tick := forged.1);
      Post(e);
      msgId := e.msgId;
    }

    /** The forged review, from the current tick on. */
    method BuildMismatch(taskId: string, payloadTaskId: string) returns (e: Envelope)
      modifies this
      ensures e == MismatchReview(env, old(tick), taskId, payloadTaskId).0
      ensures tick == MismatchReview(env, old(tick), taskId, payloadTaskId).1
    {
      var payload := MismatchObject(taskId, payloadTaskId, env.iso(tick));
      tick := tick + 1;
      e := CreateEnvelope(taskId, "codex", "aggregator", "review_result", payload, 9, None);
    }

    function GetFinalDecision(taskId: string): (d: Option<Decision>)
      reads this, mailbox, store
      ensures d.Some? <==> taskId in Snapshot().store.taskState && Snapshot().store.taskState[taskId].finalDecision.Some?
    {
      store.GetFinalDecision(taskId)
    }

    function GetQuarantineRows(): (rows: seq<QuarantineRow>)
      reads this, mailbox, store
      ensures rows == Snapshot().store.quarantine
    {
      store.QuarantineRows()
    }

    function GetReceiptCount(): (n: nat)
      reads this, mailbox, store
      ensures n == |Snapshot().store.receipts|
    {
      store.ReceiptCount()
    }

    method GetReviewerFailureCounts(taskId: string) returns (counts: FailureCounts)
      ensures counts == RowsCount(ReviewsOf(Snapshot().store, taskId))
      ensures counts.total == counts.authError + counts.networkError + counts.executionError
    {
      counts := store.GetReviewerFailureCounts(taskId);
    }

    function DeadletterCount(agentId: string): (n: nat)
      reads this, mailbox, store
      ensures n == |JsonFiles(DirOf(Snapshot().boxes.deadletter, agentId))|
    {
      mailbox.DeadletterCount(agentId)
    }
  }
}
