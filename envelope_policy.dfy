/** Envelopes, their content signature and the validation chain every consumer
    runs before acting on a message: sender consistency, the per-type sender
    allow-list, the aggregation route, the signature, and the task id carried
    in the payload. The first failing check decides the rejection code. */
module EnvelopePolicy {
  import opened Wrappers
  import opened Text
  import opened JsonValue

  /** A message as `createEnvelope` builds it. `payload` is any JSON value;
      `parentId` is present only when the envelope answers another one. */
  datatype Envelope = Envelope(
    msgId: string,
    schemaVersion: int,
    taskId: string,
    senderId: string,
    senderInstanceId: string,
    keyId: string,
    issuedAt: string,
    nonce: string,
    signature: string,
    from: string,
    to: string,
    msgType: string,
    stateVersion: int,
    deliveryAttempt: int,
    createdAt: string,
    payload: Value,
    parentId: Option<string>)

  /** The envelope as a JavaScript object, fields in the order they are set. */
  function EnvelopeFields(e: Envelope): (fs: Fields)
    ensures DistinctKeys(fs)
  {
    [("msg_id", Str(e.msgId)),
     ("schema_version", Num(e.schemaVersion)),
     ("task_id", Str(e.taskId)),
     ("sender_id", Str(e.senderId)),
     ("sender_instance_id", Str(e.senderInstanceId)),
     ("key_id", Str(e.keyId)),
     ("issued_at", Str(e.issuedAt)),
     ("nonce", Str(e.nonce)),
     ("signature", Str(e.signature)),
     ("from", Str(e.from)),
     ("to", Str(e.to)),
     ("type", Str(e.msgType)),
     ("state_version", Num(e.stateVersion)),
     ("delivery_attempt", Num(e.deliveryAttempt)),
     ("created_at", Str(e.createdAt)),
     ("payload", e.payload)]
    + (if e.parentId.Some? then [("parent_id", Str(e.parentId.value))] else [])
  }

  function ToValue(e: Envelope): Value {
    Obj(EnvelopeFields(e))
  }

  /** SHA-256 as an uninterpreted function from text to hex digest. */
  type Hash = string -> string

  /** The canonical text of `{...envelope, signature: ""}`. */
  function Canonical(e: Envelope): string {
    Stringify(ToValue(e.(signature := "")))
  }

  /** `signatureForEnvelope`. */
  function SignatureFor(hash: Hash, e: Envelope): string {
    hash(Canonical(e))
  }

  /** The last step of `createEnvelope`: store the signature of the content. */
  function Sign(hash: Hash, e: Envelope): (r: Envelope)
    ensures r.signature == SignatureFor(hash, r)
    ensures r.(signature := e.signature) == e
  {
    e.(signature := SignatureFor(hash, e))
  }

  /** What a consumer reads back from the mailbox file holding `e`. Every
      top-level field is a string, an integer or the payload, so only the
      payload is changed by the JSON round trip. */
  function Stored(e: Envelope): Envelope {
    e.(payload := Normalize(e.payload))
  }

  /** The JSON round trip reads each property of the envelope object as the
      round trip of what it was. */
  lemma StoredFields(e: Envelope)
    ensures forall k :: Lookup(EnvelopeFields(Stored(e)), k) == Normalize(Lookup(EnvelopeFields(e), k))
  {
    var fs, sfs := EnvelopeFields(e), EnvelopeFields(Stored(e));
    forall k ensures Lookup(sfs, k) == Normalize(Lookup(fs, k)) {
      var j := IndexOf(fs, k);
      var i := IndexOf(sfs, k);
      assert Keys(fs) == Keys(sfs);
      assert i == j by {
        assert forall n :: 0 <= n < |fs| ==> fs[n].0 == sfs[n].0;
      }
    }
  }

  /** A signature computed on the sender's side still matches the envelope
      the consumer reads from the mailbox. */
  lemma StoredSignature(hash: Hash, e: Envelope)
    requires WellFormed(e.payload)
    ensures SignatureFor(hash, Stored(e)) == SignatureFor(hash, e)
  {
    var blank := e.(signature := "");
    var fs := EnvelopeFields(blank);
    assert Stored(e).(signature := "") == Stored(blank);
    assert WellFormed(ToValue(blank)) by {
      assert forall i :: 0 <= i < |fs| ==> fs[i].1 == blank.payload || (!fs[i].1.Obj? && !fs[i].1.Arr?);
    }
    StringifyNormalize(ToValue(blank));
    NormalizeLookup(fs);
    StoredFields(blank);
    StringifySameLookup(EnvelopeFields(Stored(blank)), Normalize(ToValue(blank)).fields);
  }

  /** The signature never depends on the signature field itself. */
  lemma SignatureIgnoresSignature(hash: Hash, e: Envelope, s: string)
    ensures SignatureFor(hash, e.(signature := s)) == SignatureFor(hash, e)
  {
    assert e.(signature := s).(signature := "") == e.(signature := "");
  }

  /** The sender allow-lists, one per message type. */
  datatype Acl = Acl(
    taskAssignment: seq<string>,
    reviewResult: seq<string>,
    aggregationResult: seq<string>,
    control: seq<string>,
    error: seq<string>)

  /** `options.acl[String(type)] ?? []`: a type without an entry allows nobody. */
  function AllowedSenders(acl: Acl, msgType: string): seq<string> {
    if msgType == "task_assignment" then acl.taskAssignment
    else if msgType == "review_result" then acl.reviewResult
    else if msgType == "aggregation_result" then acl.aggregationResult
    else if msgType == "control" then acl.control
    else if msgType == "error" then acl.error
    else []
  }

  datatype Options = Options(
    requireTaskIdMatch: bool,
    taskIdMatchTypes: seq<string>,
    acl: Acl,
    aggregationResultTarget: string)

  datatype Validation = Valid | Invalid(code: string, message: string)

  predicate SenderConsistent(e: Envelope) {
    e.from == e.senderId
  }

  predicate SenderAllowed(opts: Options, e: Envelope) {
    e.senderId in AllowedSenders(opts.acl, e.msgType)
  }

  predicate RouteAllowed(target: string, e: Envelope) {
    e.msgType == "aggregation_result" ==> e.to == target
  }

  predicate SignatureValid(hash: Hash, e: Envelope) {
    e.signature == SignatureFor(hash, e)
  }

  /** The payload names the envelope's task, whenever the options ask for it. */
  predicate TaskIdConsistent(requireTaskIdMatch: bool, taskIdMatchTypes: seq<string>, e: Envelope) {
    requireTaskIdMatch && e.msgType in taskIdMatchTypes ==> Get(e.payload, "task_id") == Str(e.taskId)
  }

  /** `validateEnvelope` of envelope-policy.ts. */
  function Validate(hash: Hash, e: Envelope, opts: Options): (r: Validation)
    ensures r == Valid <==>
      SenderConsistent(e) && SenderAllowed(opts, e) && RouteAllowed(opts.aggregationResultTarget, e)
      && SignatureValid(hash, e) && TaskIdConsistent(opts.requireTaskIdMatch, opts.taskIdMatchTypes, e)
  {
    if e.from != e.senderId then
      Invalid("SENDER_ID_MISMATCH", "from must equal sender_id")
    else if e.senderId !in AllowedSenders(opts.acl, e.msgType) then
      Invalid("ACL_DENY", "sender " + e.senderId + " cannot publish " + e.msgType)
    else if e.msgType == "aggregation_result" && e.to != opts.aggregationResultTarget then
      Invalid("INVALID_ROUTE", "aggregation_result must target " + opts.aggregationResultTarget)
    else if e.signature != SignatureFor(hash, e) then
      Invalid("SIGNATURE_INVALID", "signature verification failed")
    else if opts.requireTaskIdMatch && e.msgType in opts.taskIdMatchTypes
            && Get(e.payload, "task_id") != Str(e.taskId) then
      Invalid("TASK_ID_MISMATCH", "envelope.task_id must equal payload.task_id")
    else
      Valid
  }

  function Code(v: Validation): string {
    if v.Invalid? then v.code else ""
  }

  /** Each rejection code appears exactly when every earlier check passed and
      its own check failed. */
  lemma ValidationOrder(hash: Hash, e: Envelope, opts: Options)
    ensures Code(Validate(hash, e, opts)) == "SENDER_ID_MISMATCH" <==> !SenderConsistent(e)
    ensures Code(Validate(hash, e, opts)) == "ACL_DENY" <==> SenderConsistent(e) && !SenderAllowed(opts, e)
    ensures Code(Validate(hash, e, opts)) == "INVALID_ROUTE" <==>
      SenderConsistent(e) && SenderAllowed(opts, e) && !RouteAllowed(opts.aggregationResultTarget, e)
    ensures Code(Validate(hash, e, opts)) == "SIGNATURE_INVALID" <==>
      SenderConsistent(e) && SenderAllowed(opts, e) && RouteAllowed(opts.aggregationResultTarget, e)
      && !SignatureValid(hash, e)
    ensures Code(Validate(hash, e, opts)) == "TASK_ID_MISMATCH" <==>
      SenderConsistent(e) && SenderAllowed(opts, e) && RouteAllowed(opts.aggregationResultTarget, e)
      && SignatureValid(hash, e) && !TaskIdConsistent(opts.requireTaskIdMatch, opts.taskIdMatchTypes, e)
  {
  }

  /** A mismatched `from` is reported as such even when the envelope was
      re-signed after tampering, because that check comes first. */
  lemma ResignedSpoofRejected(hash: Hash, e: Envelope, spoofed: string, opts: Options)
    requires spoofed != e.senderId
    ensures Validate(hash, Sign(hash, e.(from := spoofed)), opts)
         == Invalid("SENDER_ID_MISMATCH", "from must equal sender_id")
  {
  }

  /** A message type without an allow-list entry is always refused (once the
      sender fields agree). */
  lemma UnknownTypeDenied(hash: Hash, e: Envelope, opts: Options)
    requires SenderConsistent(e)
    requires e.msgType !in ["task_assignment", "review_result", "aggregation_result", "control", "error"]
    ensures Validate(hash, e, opts).Invalid? && Validate(hash, e, opts).code == "ACL_DENY"
  {
  }

  lemma NormalizeIsStr(x: Value, s: string)
    ensures Normalize(x) == Str(s) <==> x == Str(s)
  {
  }

  lemma GetNormalize(v: Value, k: string)
    requires WellFormed(v)
    ensures Get(Normalize(v), k) == Normalize(Get(v, k))
  {
    if v.Obj? {
      NormalizeLookup(v.fields);
    }
  }

  /** Passing through a mailbox file never changes the verdict of validation. */
  lemma ValidateStored(hash: Hash, e: Envelope, opts: Options)
    requires WellFormed(e.payload)
    ensures Validate(hash, Stored(e), opts) == Validate(hash, e, opts)
  {
    StoredSignature(hash, e);
    GetNormalize(e.payload, "task_id");
    NormalizeIsStr(Get(e.payload, "task_id"), e.taskId);
  }
}
