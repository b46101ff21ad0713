# Mailbox parallel review: a Dafny model

This project models the core of a file-mailbox review runtime. Agents talk
only through signed JSON envelopes left in per-agent mailbox directories.

## The system

The review protocol runs between four agents. An orchestrator seeds one
review assignment per task for each of two reviewers, `codex` and `claude`.
Each reviewer answers with a review result, produced either
deterministically or by running an external reviewer CLI. An aggregator
collects these results until every required reviewer has answered (the
quorum). It then publishes exactly one aggregation per task, and the
orchestrator records the final decision from it.

Every message crosses a gate before it is acted on:

- an envelope policy, in this order: `from` equal to `sender_id`, the
  sender allow-list per message type, aggregation results routed to the
  configured target (the orchestrator), an unkeyed SHA-256 digest over a stable key-sorted
  serialisation of the envelope with its signature field blank, and a task-id match for the review types;
- an idempotent state store: a receipt per (task, sender, message), an
  append-only quarantine log, a review cache, and a per-task guard that
  lets the aggregation go out once.

A message that fails the gate goes to its agent's dead-letter directory
and is logged in the quarantine file. A message that passes is
acknowledged. A redelivered message is acknowledged and ignored.

The project also models:

- the agent configuration adapter, which turns profile documents into
  runtime agents and an access-control list;
- the agent-definition policy, which checks versioned agent definitions
  and derives the reviewer set from them;
- the runtime's command-line entry point and its operational gate over
  the counted reviewer failures;
- the `run_parallel_review` script, which parses its options, applies
  their defaults and builds the runtime's command line.

## Modules

- `Wrappers`: `Option` and `Result`.
- `Text`: `trim`, case folding and decimal printing.
- `StringOrder`: the default `sort()` order and `[...new Set(...)]`.
- `JsonValue`: JavaScript values as JSON sees them. This covers property
  lookup, the JSON file round trip, `stableStringify` and `Number()`.
- `EnvelopePolicy`: signing and validating envelopes
  (`src/poc/modules/envelope-policy.ts`).
- `RuntimeValidation`: the runtime's own copy of validation, with its
  principal table (`src/poc/runtime.ts`).
- `FileMailbox`: mailbox directories as sequences of named files, and the
  class `Mailbox` whose methods publish, consume, acknowledge and
  dead-letter.
- `FileStateStore`: the receipt, quarantine, review and task state, and
  the class `StateStore` over them.
- `ReviewPayloads`: payload normalisation, failure classification and the
  aggregation decision.
- `AgentAdapter` and `AgentDefinitionPolicy`: the agent configuration.
- `PocRuntime`: the runtime as a state machine over a world value. It has
  a gate step, a step per role, a pass and the bounded run loop, with
  invariants such as "at most one aggregation per task" and "once a pass
  does nothing, the world stays as it is".
- `RuntimeLoop`: the class `Runtime`. Its methods walk the same steps with
  loops, and each is proved against the `PocRuntime` functions.
- `RuntimeMain`: the entry point.
- `ParallelReview` and `ParallelReviewFacts`: the runner script, and the
  facts its test file relies on.

## Environment parameters

Time, UUIDs, hashing, the reviewer CLI and the JSON parser are the
environment. They enter the model as function-valued parameters (`Env`,
`Context`). The runtime draws them through a counter, so every run is a
function of its inputs.

## Where the model follows the code

Receipts are keyed by the envelope's `sender_id`, not by the agent that
consumes the message (`src/poc/runtime.ts:881-886`). The model follows
the code here.

## Model

| member | source | states |
|---|---|---|
| JsonValue.Keys | src/poc/modules/envelope-policy.ts:14 | `Object.keys` lists one key per field, in field order |
| JsonValue.LookupAt | src/poc/modules/envelope-policy.ts:15-17 | in an object whose keys are distinct, a field's own key reads that field's value |
| JsonValue.LookupAbsent | src/poc/modules/envelope-policy.ts:15 | a key that no field carries reads as `undefined` |
| JsonValue.Normalize | src/poc/modules/file-mailbox.ts:18-20 | the value read back from a JSON file is `undefined` exactly when the value written was |
| JsonValue.NormalizeLookup | src/poc/modules/file-mailbox.ts:14-20 | an object read back from its file is an object with distinct keys, and every property reads as the round trip of what it read before, so `undefined` fields disappear |
| JsonValue.EscapeRoundTrip | src/poc/modules/envelope-policy.ts:9 | `JSON.parse` of what `JSON.stringify` wrote for a string gives that string back |
| JsonValue.QuoteInjective | src/poc/modules/envelope-policy.ts:17 | distinct keys are written as distinct JSON string literals |
| JsonValue.DefinedKeysMembers | src/poc/modules/envelope-policy.ts:14-15 | the filtered key list holds exactly the keys whose property is not `undefined` |
| JsonValue.SortedDefinedKeysEqual | src/poc/modules/envelope-policy.ts:14-16 | the sorted key list depends only on which keys are defined, not on the order of the fields |
| JsonValue.StringifySameLookup | src/poc/modules/envelope-policy.ts:14-17 | two objects whose properties all read alike have the same canonical text |
| JsonValue.StringifyFieldOrder | src/poc/modules/envelope-policy.ts:14-17 | field insertion order never changes `stableStringify` |
| JsonValue.StringifyIgnoresUndefinedField | src/poc/modules/envelope-policy.ts:15 | adding a field whose value is `undefined` leaves the canonical text unchanged |
| JsonValue.StringifyNormalize | src/poc/modules/envelope-policy.ts:4-18 | the canonical text is invariant under the JSON file round trip, because `undefined` slots already print as `null` and `undefined` fields are already skipped |
| JsonValue.NumberOfPrintedInt | agents/skills/mailbox-parallel-review/scripts/run_parallel_review.mjs:172-174 | `Number(String(n))` is `n` for every integer |
| Text.TrimShape | src/poc/modules/agent-adapter.ts:30 | `trim` removes only whitespace, from both ends |
| Text.TrimEnds | src/poc/modules/agent-adapter.ts:50 | a trimmed text neither starts nor ends with whitespace |
| Text.TrimIdempotent | src/poc/modules/agent-definition-policy.ts:66-68 | trimming twice is trimming once |
| Text.TrimPadded | src/poc/runtime-main.ts:42-43 | whitespace padding around a trimmed text is exactly what `trim` removes |
| Text.NatToStringRoundTrip | agents/skills/mailbox-parallel-review/scripts/run_parallel_review.mjs:331-342 | the decimal digits printed for a natural number read back as that number |
| Text.IntToStringInjective | agents/skills/mailbox-parallel-review/scripts/run_parallel_review.mjs:331-342 | distinct integers print as distinct strings |
| EnvelopePolicy.EnvelopeFields | src/poc/runtime.ts:539-573 | the envelope object has distinct keys |
| EnvelopePolicy.Sign | src/poc/runtime.ts:567-572 | the stored signature is the signature of the signed envelope, and nothing else changes |
| EnvelopePolicy.StoredFields | src/poc/modules/file-mailbox.ts:52 | reading an envelope back from its file reads every property as its JSON round trip |
| EnvelopePolicy.StoredSignature | src/poc/modules/envelope-policy.ts:20-24 | a signature computed before publishing matches the envelope read back from the mailbox |
| EnvelopePolicy.SignatureIgnoresSignature | src/poc/modules/envelope-policy.ts:20-24 | `signatureForEnvelope` does not depend on the `signature` field, so re-signing makes the integrity check pass |
| EnvelopePolicy.Validate | src/poc/modules/envelope-policy.ts:26-62 | the result is `ok` exactly when all five checks pass |
| EnvelopePolicy.ValidationOrder | src/poc/modules/envelope-policy.ts:41-61 | each code (`SENDER_ID_MISMATCH`, `ACL_DENY`, `INVALID_ROUTE`, `SIGNATURE_INVALID`, `TASK_ID_MISMATCH`) is returned exactly when every earlier check passed and its own failed |
| EnvelopePolicy.ResignedSpoofRejected | src/poc/modules/envelope-policy.ts:41-43 | a `from` that differs from `sender_id` is rejected as `SENDER_ID_MISMATCH` even after re-signing |
| EnvelopePolicy.UnknownTypeDenied | src/poc/modules/envelope-policy.ts:44-47 | a message type with no allow-list entry is refused with `ACL_DENY` |
| EnvelopePolicy.GetNormalize | src/poc/modules/envelope-policy.ts:56 | `payload?.task_id` of the round-tripped payload is the round trip of the original property |
| EnvelopePolicy.ValidateStored | src/poc/modules/envelope-policy.ts:26-62 | passing through a mailbox file never changes the validation verdict |
| RuntimeValidation.ValidateEnvelope | src/poc/runtime.ts:106-133 | the runtime's inline check is `ok` exactly when the sender fields agree, the hard-coded allow-list admits the sender, an `aggregation_result` targets `orchestrator`, the signature matches and the task ids agree |
| RuntimeValidation.SenderAllowedIsBuiltAcl | src/poc/runtime.ts:87-104 | `senderAllowedByType` is membership in the `buildAcl` lists of the default principals |
| RuntimeValidation.DefaultConfigAcl | src/poc/modules/agent-adapter.ts:109-128 | the configuration built without options yields exactly the hard-coded allow-lists |
| RuntimeValidation.ValidateEnvelopeIsPolicy | src/poc/runtime.ts:106-133 | the runtime's inline check equals the module's `validateEnvelope`, code and message alike, for the default principals with `orchestrator` as the aggregation target |
| FileMailbox.Find | src/poc/modules/file-mailbox.ts:65-69 | a file's content is found exactly when the directory has a file of that name |
| FileMailbox.Put | src/poc/modules/file-mailbox.ts:52 | after writing, the directory holds the new file and otherwise only files it held before |
| FileMailbox.Remove | src/poc/modules/file-mailbox.ts:78-96 | no file of the removed name is left, and every other file stays |
| FileMailbox.JsonFiles | src/poc/modules/file-mailbox.ts:61 | the listing keeps exactly the files whose names end in `.json` |
| FileMailbox.PutOrdered | src/poc/modules/file-mailbox.ts:59-62 | writing keeps the listing strictly sorted by name |
| FileMailbox.RemoveOrdered | src/poc/modules/file-mailbox.ts:82 | removing keeps the listing strictly sorted |
| FileMailbox.JsonFilesOrdered | src/poc/modules/file-mailbox.ts:61-62 | the `.json` filter keeps the listing sorted |
| FileMailbox.FindPut | src/poc/modules/file-mailbox.ts:52 | writing one file leaves every other name's file unchanged |
| FileMailbox.FindRemove | src/poc/modules/file-mailbox.ts:82 | removing one name leaves every other name's file unchanged |
| FileMailbox.CountPut | src/poc/modules/file-mailbox.ts:103 | a new `.json` name makes one more file visible; an overwrite changes no count |
| FileMailbox.CountRemove | src/poc/modules/file-mailbox.ts:95 | deleting a visible `.json` file makes one fewer visible |
| FileMailbox.SliceEnd | src/poc/modules/file-mailbox.ts:63 | `slice(0, limit)` keeps min(limit, n) items for a non-negative limit and counts from the end for a negative one |
| FileMailbox.FileName | src/poc/modules/file-mailbox.ts:50 | the file name is `msg_id--time--uuid.json`, so it ends in `.json` and starts with the message id |
| FileMailbox.ConsumeBoxes | src/poc/modules/file-mailbox.ts:56-72 | `consume` hands out as many files as `slice(0, limit)` leaves of the pending `.json` files |
| FileMailbox.PublishEffect | src/poc/modules/file-mailbox.ts:47-54 | publishing adds the round-tripped envelope under a fresh `.json` name to the addressee's inbox only, with one more pending entry |
| FileMailbox.PublishTwiceTwoEntries | src/poc/modules/file-mailbox.ts:47-54 | publishing the same envelope twice with two UUIDs leaves two pending copies |
| FileMailbox.ConsumeFirst | src/poc/modules/file-mailbox.ts:56-72 | `consume(a, k)` hands out the first min(k, pending) `.json` files in ascending name order, with their agent and content |
| FileMailbox.FindOrdered | src/poc/modules/file-mailbox.ts:64-69 | in a sorted listing, a file's name finds that file |
| FileMailbox.PeekAll | src/poc/modules/file-mailbox.ts:74-76 | `peek` hands out every pending message whenever there are fewer than 2^53 |
| FileMailbox.AckOrdered | src/poc/modules/file-mailbox.ts:78-83 | `ack` keeps every directory sorted |
| FileMailbox.NackOrdered | src/poc/modules/file-mailbox.ts:85-96 | `nack` keeps every directory sorted |
| FileMailbox.AckEffect | src/poc/modules/file-mailbox.ts:78-83 | `ack` moves the file from the agent's inbox to its ack directory; other agents and every deadletter directory are unchanged |
| FileMailbox.NackEffect | src/poc/modules/file-mailbox.ts:85-104 | `nack` removes the file from the inbox and writes `{reason, quarantined_at, envelope}` to that agent's deadletter, raising its count by one under a new name; acks are unchanged |
| FileMailbox.Mailbox.constructor | src/poc/modules/file-mailbox.ts:35-45 | `init` gives every listed agent three empty directories |
| FileMailbox.Mailbox.Publish | src/poc/modules/file-mailbox.ts:47-54 | the new directories are those of `PublishBoxes`, and the returned name is the file's name |
| FileMailbox.Mailbox.Ack | src/poc/modules/file-mailbox.ts:78-83 | the new directories are those of `AckBoxes` |
| FileMailbox.Mailbox.Nack | src/poc/modules/file-mailbox.ts:85-96 | the new directories are those of `NackBoxes` |
| FileMailbox.DeadletterCountFresh | src/poc/modules/file-mailbox.ts:98-102 | an agent whose deadletter directory was never written counts zero |
| FileStateStore.InsertReceiptAsWritten | src/poc/modules/file-state-store.ts:65-83 | the receipt gate over keys that join task, agent and message id with a bar character, as written |
| FileStateStore.ReceiptKeyCollision | src/poc/modules/file-state-store.ts:65-67 | two different receipts whose ids contain the bar character share a joined key, so the second is refused |
| FileStateStore.SplitAtBar | src/poc/modules/file-state-store.ts:65-67 | text joined at a bar splits back into the same two parts when the heads hold no bar |
| FileStateStore.ReceiptKeyAsWrittenInjective | src/poc/modules/file-state-store.ts:65-67 | when task and agent ids hold no bar character, equal joined keys come from the same (task, agent, message) triple |
| FileStateStore.ReceiptGatesAgree | src/poc/modules/file-state-store.ts:65-87 | for receipts whose task and agent ids hold no bar character, the joined-key gate as written gives the same answer as the per-triple gate and keeps the joined keys of the same receipt set |
| FileStateStore.FailureCodesOf | src/poc/modules/file-state-store.ts:105-109 | every listed code matches `REVIEWER_*_ERROR`, and a code is listed exactly when some finding carries it and it matches |
| FileStateStore.ReviewFromPayloadMeaning | src/poc/modules/file-state-store.ts:105-118 | `blocking_count` is the length of an array `blocking`, else `Number(blocking_count ?? 0)`; `has_execution_error` holds exactly when some code matches |
| FileStateStore.Upsert | src/poc/modules/file-state-store.ts:111 | after `rows[id] = record` the rows hold the new entry and otherwise only old entries |
| FileStateStore.UpsertFind | src/poc/modules/file-state-store.ts:111 | after `rows[id] = record` the id reads the record and every other id reads as before |
| FileStateStore.UpsertIds | src/poc/modules/file-state-store.ts:111 | the reviewer ids afterwards are the old ones plus the new one |
| FileStateStore.UpsertDistinct | src/poc/modules/file-state-store.ts:111 | the reviewer ids stay distinct |
| FileStateStore.Loaded | src/poc/modules/file-state-store.ts:43-63 | after `init` the receipt set is exactly the keys of the receipt log |
| FileStateStore.InsertReceiptMeaning | src/poc/modules/file-state-store.ts:69-87 | `insertReceipt` is true the first time a `(task, agent, msg)` key is offered and false later; the count grows by one exactly on true; nothing but the receipts changes |
| FileStateStore.AppendQuarantineMeaning | src/poc/modules/file-state-store.ts:89-99 | the quarantine log grows by exactly one row at its end and keeps earlier rows |
| FileStateStore.RecordReviewMeaning | src/poc/modules/file-state-store.ts:101-120 | recording a review replaces only the `[task][reviewer]` entry |
| FileStateStore.OccurrencesSnoc | src/poc/modules/file-state-store.ts:141 | appending a code adds one occurrence of that code and of no other |
| FileStateStore.CodesCountMeaning | src/poc/modules/file-state-store.ts:139-157 | each class counts the occurrences of its code, other codes count nothing, and the total is the sum of the classes |
| FileStateStore.RowsCountTotal | src/poc/modules/file-state-store.ts:126-159 | over all cached reviews, total = auth + network + execution |
| FileStateStore.OtherCodesIgnored | src/poc/modules/file-state-store.ts:141-156 | a review whose codes are none of the three classes leaves the counts unchanged, whatever other `REVIEWER_*_ERROR` codes it has |
| FileStateStore.CodeCountClasses | src/poc/modules/file-state-store.ts:142-155 | exactly the three failure classes are counted |
| FileStateStore.CountCode | src/poc/modules/file-state-store.ts:142-155 | the `if`/`continue` chain for one code bumps its class and the total, or nothing |
| FileStateStore.TallyCodes | src/poc/modules/file-state-store.ts:141-156 | the inner loop adds one review's codes to the running counts |
| FileStateStore.MarkAggregationPublishedMeaning | src/poc/modules/file-state-store.ts:161-172 | marking with a non-empty id closes that task's aggregation guard only, and keeps its final decision |
| FileStateStore.UnknownTask | src/poc/modules/file-state-store.ts:161-184 | a task never written has an open guard and a null decision |
| FileStateStore.SetFinalDecisionMeaning | src/poc/modules/file-state-store.ts:174-184 | the decision read back is the last one set; setting it keeps the task's aggregation guard and touches no other task |
| FileStateStore.StateStore.constructor | src/poc/modules/file-state-store.ts:43-63 | the loaded state, in which the receipts are the keys of the log |
| FileStateStore.StateStore.InsertReceipt | src/poc/modules/file-state-store.ts:69-83 | the new state and the answer are those of the receipt gate, keyed by the triple |
| FileStateStore.StateStore.AppendQuarantine | src/poc/modules/file-state-store.ts:89-94 | the new state has one more quarantine row at the end |
| FileStateStore.StateStore.RecordReview | src/poc/modules/file-state-store.ts:101-120 | the new state has the review upserted under task and reviewer |
| FileStateStore.StateStore.GetReviewerFailureCounts | src/poc/modules/file-state-store.ts:126-159 | the nested loops compute the tally over the cached reviews, with total = auth + network + execution |
| FileStateStore.StateStore.MarkAggregationPublished | src/poc/modules/file-state-store.ts:166-172 | the new state records the message id and time for the task |
| FileStateStore.StateStore.SetFinalDecision | src/poc/modules/file-state-store.ts:174-180 | the new state records the decision and time for the task |
| StringOrder.LessIrreflexive | src/poc/modules/envelope-policy.ts:14-16 | the code-point order used by the key sort never ranks a string before itself |
| StringOrder.LessAsymmetric | src/poc/modules/envelope-policy.ts:14-16 | a string ranked before another is never also ranked after it |
| StringOrder.LessTransitive | src/poc/modules/envelope-policy.ts:14-16 | the order is transitive |
| StringOrder.LessTotal | src/poc/modules/envelope-policy.ts:14-16 | any two different strings are ranked one way or the other |
| StringOrder.Dedup | src/poc/modules/agent-definition-policy.ts:67 | spreading a `Set` keeps every element once and no other value |
| StringOrder.DedupDistinct | src/poc/modules/agent-definition-policy.ts:67 | a list without repeats comes out of a `Set` unchanged |
| StringOrder.DedupOrder | src/poc/modules/agent-definition-policy.ts:67 | spreading a `Set` keeps its elements in the order of their first occurrence |
| StringOrder.Insert | src/poc/modules/envelope-policy.ts:16 | one insertion step adds exactly the new element |
| StringOrder.InsertSorted | src/poc/modules/envelope-policy.ts:16 | inserting into a sorted list keeps it sorted |
| StringOrder.InsertDistinct | src/poc/modules/envelope-policy.ts:16 | inserting a new element into a list without repeats keeps it without repeats |
| StringOrder.Sort | src/poc/modules/envelope-policy.ts:14-16 | `sort()` returns a permutation of its input |
| StringOrder.SortSorted | src/poc/modules/envelope-policy.ts:14-16 | `sort()` returns a sorted list |
| StringOrder.SortStrict | src/poc/runtime.ts:1004 | sorting distinct keys gives a strictly increasing list with the same members |
| StringOrder.StrictlySortedUnique | src/poc/modules/envelope-policy.ts:14-16 | two strictly sorted lists with the same members are equal, so the sorted key list depends only on the set of keys |
| StringOrder.SortedUnique | src/poc/modules/envelope-policy.ts:14-16 | two sorted lists that are permutations of each other are equal |
| StringOrder.SortPermutation | src/poc/modules/envelope-policy.ts:14-16 | sorting two permutations of the same keys gives the same list |
| Text.TrimStart | src/poc/modules/agent-adapter.ts:30-31 | the result is a suffix of the input, what it drops is all white space, and it does not start with white space |
| Text.TrimEnd | src/poc/modules/agent-adapter.ts:30-31 | the result is a prefix of the input, what it drops is all white space, and it does not end with white space |
| Text.TrimStartPadded | src/poc/modules/agent-adapter.ts:30-31 | white space put in front of a string does not change what trimming its start gives |
| Text.TrimEndPadded | src/poc/modules/agent-adapter.ts:30-31 | trailing white space after a non-space end is removed and nothing else |
| Text.UpperAll | src/poc/runtime.ts:202-207 | the case folding of the `i` patterns keeps the length and maps each character by the ASCII upper-case rule |
| Text.ContainsInfix | src/poc/runtime.ts:202-207 | a text contains every word placed inside it, so a message quoting a pattern matches it |
| Text.NatToString | src/poc/modules/file-mailbox.ts:50 | the decimal form of a number is non-empty, made of digits and has no leading zero |
| Text.IntToString | src/poc/modules/envelope-policy.ts:8 | the printed form of an integer is non-empty and starts with a minus sign exactly when it is negative |
| ReviewPayloads.TruncateTextMeaning | src/poc/runtime.ts:30-42 | lengths and slices count UTF-16 code units; a text within the budget is kept as it is and a non-positive budget gives the empty text; for a budget m of at least 2 and a longer text the head is floor(3m/4) units (at least 1 and below m), the tail the other m minus head units, and the marker between them names the number of units cut |
| ReviewPayloads.TruncateTextTiny | src/poc/runtime.ts:37-41 | with a budget of 1 the head and the tail are one code unit each, so one unit more than the budget survives, and the marker names the rest |
| ReviewPayloads.MarkerHead | src/poc/runtime.ts:41 | the truncation marker is non-empty and starts with a line feed |
| ReviewPayloads.TruncateTextSplitsPair | src/poc/runtime.ts:38-41 | since the cut counts code units, three characters outside the Basic Multilingual Plane under a budget of 4 keep a lone high surrogate right before the marker and end on a low surrogate |
| Text.Utf16Char | src/poc/runtime.ts:35 | a character below U+10000 is one code unit equal to it; any other is a high surrogate followed by a low surrogate |
| Text.Utf16Bmp | src/poc/runtime.ts:35 | a text below U+10000 has one code unit per character, each equal to the character |
| Text.Utf16Astral | src/poc/runtime.ts:35 | a text of characters from U+10000 on has two code units per character, a high then a low surrogate |
| ReviewPayloads.StringOrAbsent | src/poc/runtime.ts:179 | a finding's `file_path` is kept only when it is a string |
| ReviewPayloads.PositiveLine | src/poc/runtime.ts:180 | a finding's `line` is kept only when it is a positive integer |
| ReviewPayloads.SeverityOf | src/poc/runtime.ts:174 | a severity is always one of the four known ones, kept when known and `medium` otherwise |
| ReviewPayloads.ToFindingArray | src/poc/runtime.ts:169-184 | findings are always an array, with one finding per element of an array input and none otherwise |
| ReviewPayloads.NormalizeFindingGets | src/poc/runtime.ts:173-182 | each finding property is the string form of the reviewer's value or its default, and the checked path, line and severity |
| ReviewPayloads.NormalizeFindingMeaning | src/poc/runtime.ts:173-182 | a normalised finding has string code, title and detail, a known severity, a string or absent path and a positive or absent line; a string code is kept and a missing one becomes `AUTO_<n>` for the 1-based position |
| ReviewPayloads.NormalizeFindingFixed | src/poc/runtime.ts:172-183 | normalising a normalised finding again changes nothing |
| ReviewPayloads.NormalizeFindingWellFormed | src/poc/runtime.ts:173-182 | a normalised finding is a JSON value with distinct keys |
| ReviewPayloads.ToFindingArrayIdempotent | src/poc/runtime.ts:169-184 | normalising a finding array twice is the same as once |
| ReviewPayloads.Classify | src/poc/runtime.ts:199-210 | every failure is classified as an authentication, network or execution error |
| ReviewPayloads.ClassifyIsReviewerError | src/poc/runtime.ts:199-210 | every class is a code the state store counts as a reviewer failure |
| ReviewPayloads.ClassifyPriority | src/poc/runtime.ts:199-210 | authentication patterns win over network patterns, and the rest is an execution error; the matching ignores case |
| ReviewPayloads.MatchesAnyInfix | src/poc/runtime.ts:201-206 | a pattern anywhere in the text, in any case, is a match |
| ReviewPayloads.ClassifyAuthOverNetwork | src/poc/runtime.ts:199-210 | a text that mentions both `401 unauthorized` and `ECONNRESET` is an authentication error |
| ReviewPayloads.ReviewGets | src/poc/runtime.ts:855-867 | in a review payload each property reads as the field built for it, and keys are distinct |
| ReviewPayloads.VerdictOf | src/poc/runtime.ts:844 | the verdict is FAIL exactly when the reviewer said FAIL, and PASS otherwise |
| ReviewPayloads.ConfidenceOf | src/poc/runtime.ts:847 | the confidence is always known, and the reviewer's own when it is known |
| ReviewPayloads.NextActionOf | src/poc/runtime.ts:848-853 | the next action is always known: the reviewer's own when known, else `rework` exactly for FAIL |
| ReviewPayloads.GeneratedAtOf | src/poc/runtime.ts:865 | the time stamp is a string, and the reviewer's when it gave one |
| ReviewPayloads.NormalizeReviewPayloadMeaning | src/poc/runtime.ts:836-868 | a normalised review names the envelope's task, is FAIL exactly when the reviewer said FAIL, and carries a known next action and confidence and finding arrays |
| ReviewPayloads.NormalizeReviewPayloadWellFormed | src/poc/runtime.ts:836-868 | a normalised review is a JSON value with distinct keys |
| ReviewPayloads.DeterministicReviewMeaning | src/poc/runtime.ts:932-958 | the deterministic reviewer fails, with one blocking `TEST_MISSING` finding and `rework`, exactly when the instruction contains `force-fail:<reviewer>`, and otherwise passes with no blocking finding and `proceed` |
| ReviewPayloads.DeterministicReviewWellFormed | src/poc/runtime.ts:945-958 | the deterministic review is a JSON value with distinct keys |
| ReviewPayloads.ForceFailAnywhere | src/poc/runtime.ts:933 | the force-fail marker anywhere in the instruction makes the review FAIL |
| ReviewPayloads.CliFailureMeaning | src/poc/runtime.ts:902-929 | a failed CLI run becomes a FAIL review that needs a person, with one blocking finding carrying the failure code |
| ReviewPayloads.CliFailureRecord | src/poc/runtime.ts:902-929 | the store records such a review as an execution error with one blocking finding and the classified code |
| ReviewPayloads.CliFailureReviewWellFormed | src/poc/runtime.ts:909-929 | the failure review is a JSON value with distinct keys |
| ReviewPayloads.DisagreeMeaning | src/poc/runtime.ts:1016-1017 | the reviewers disagree exactly when two of them gave verdicts that a JavaScript set tells apart |
| ReviewPayloads.DecisionRule | src/poc/runtime.ts:1013-1026 | the decision is FAIL exactly when some review failed or had blocking findings; the next action is `manual_review_required` exactly on an execution error or a disagreement, else `proceed` for PASS and `rework` for FAIL; blocking findings are summed |
| ReviewPayloads.DecisionAllPass | src/poc/runtime.ts:1013-1026 | two clean passes give PASS with no blocking findings and `proceed` |
| ReviewPayloads.DecisionSplit | src/poc/runtime.ts:1013-1026 | a pass and a fail give FAIL, a disagreement and `manual_review_required` |
| AgentAdapter.IdOr | src/poc/modules/agent-adapter.ts:30-31 | the id is the trimmed string form of the option (the fallback when it is absent), and the fallback whenever that trims to nothing; never empty |
| AgentAdapter.TrimmedModel | src/poc/modules/agent-adapter.ts:32-33 | a model name is kept, trimmed, exactly when it is given and not blank |
| AgentAdapter.TrimmedText | src/poc/modules/agent-adapter.ts:59-81 | an optional text property is kept, trimmed and non-empty, exactly when it is a string that is not blank |
| AgentAdapter.NonEmpty | src/poc/modules/agent-adapter.ts:64 | the kept parts are exactly the non-empty ones, and there are no more of them than before |
| AgentAdapter.CommandTemplate | src/poc/modules/agent-adapter.ts:63-82 | a command template exists exactly for an array with an entry whose `String(x ?? "").trim()` is non-empty; it then holds exactly those non-empty trimmed entry strings, each already trimmed |
| AgentAdapter.NonEmptyAppend | src/poc/modules/agent-adapter.ts:64 | `filter(Boolean)` of a concatenation is the concatenation of the filters, so the kept parts stay in their original order |
| AgentAdapter.TemplateParts | src/poc/modules/agent-adapter.ts:64 | the mapped template has one trimmed `String(x ?? "")` per array entry, at the same position |
| AgentAdapter.TemplatePartsKept | src/poc/modules/agent-adapter.ts:64 | the filtered parts are exactly the entries' non-empty trimmed strings, and there is one exactly when some entry is non-blank |
| AgentAdapter.CommandTemplateAppend | src/poc/modules/agent-adapter.ts:63-65 | entries appended to the array add their own non-empty parts after the existing template, so the template follows array order |
| AgentAdapter.PairsToMap | src/poc/modules/agent-adapter.ts:69-73 | every key of the env map is non-empty and comes from one of the entries |
| AgentAdapter.PairsLastWins | src/poc/modules/agent-adapter.ts:69-73 | a key takes the value of the last entry that carries it |
| AgentAdapter.EnvFromEntries | src/poc/modules/agent-adapter.ts:67-74 | every key of a profile's env is non-blank and trimmed |
| AgentAdapter.EnvLastWins | src/poc/modules/agent-adapter.ts:67-74 | the env maps a trimmed key to the string form of the last entry's value for it (the empty string for null or undefined) |
| AgentAdapter.NormalizeReviewer | src/poc/modules/agent-adapter.ts:49-86 | an entry becomes a profile exactly when it has a non-blank id and a provider of `codex` or `claude`; the profile keeps that id and provider; otherwise the error is the missing-id message (with the index) or the provider message (with the id) |
| AgentAdapter.MapOrFailMeaning | src/poc/modules/agent-adapter.ts:49 | a throwing map succeeds exactly when the callback succeeds on every entry and then holds its results in order; otherwise it fails with the first entry's error |
| AgentAdapter.NormalizeReviewersValid | src/poc/modules/agent-adapter.ts:49-86 | normalising the reviewers succeeds exactly when every entry is valid |
| AgentAdapter.NormalizeReviewersIds | src/poc/modules/agent-adapter.ts:49-86 | the normalised profiles keep the entries' order and their trimmed ids |
| AgentAdapter.NormalizeReviewersError | src/poc/modules/agent-adapter.ts:52-57 | a failure carries the message of the first invalid entry |
| AgentAdapter.NormalizeReviewersMeaning | src/poc/modules/agent-adapter.ts:49-86 | the three facts above together |
| AgentAdapter.FirstRepeat | src/poc/modules/agent-adapter.ts:88-94 | a found position holds an id already seen before it |
| AgentAdapter.FirstRepeatNone | src/poc/modules/agent-adapter.ts:88-94 | no repeat is found exactly when the ids are distinct |
| AgentAdapter.IdConflictMeaning | src/poc/modules/agent-adapter.ts:88-100 | the id check passes exactly when the reviewer ids are distinct and neither the orchestrator nor the aggregator id is among them |
| AgentAdapter.CheckReviewerIds | src/poc/modules/agent-adapter.ts:88-100 | the loop over a `seen` set reports the first duplicate, then an orchestrator clash, then an aggregator clash, with the source's messages |
| AgentAdapter.Ids | src/poc/modules/agent-adapter.ts:119-123 | one id per reviewer, in order |
| AgentAdapter.DefaultItemValid | src/poc/modules/agent-adapter.ts:35-46 | each default entry is valid, identified and provided by its provider's name |
| AgentAdapter.ItemIds | src/poc/modules/agent-adapter.ts:50 | the trimmed id of every entry, in order |
| AgentAdapter.BuildRuntimeAgentConfig | src/poc/modules/agent-adapter.ts:23-107 | the method's result is the configuration (or the thrown message) defined below |
| AgentAdapter.BuildMeaning | src/poc/modules/agent-adapter.ts:23-107 | a configuration is built exactly when every reviewer entry is valid, their ids are distinct and neither the orchestrator nor the aggregator id clashes with them; it then carries the entries' ids in order and the two non-empty principal ids |
| AgentAdapter.BuiltReviewersHaveIds | src/poc/modules/agent-adapter.ts:50-54 | every built reviewer has a non-empty, trimmed id |
| AgentAdapter.DefaultReviewers | src/poc/modules/agent-adapter.ts:35-48 | without a non-empty reviewer list the reviewers are `codex` then `claude` whenever the principals do not take those names |
| AgentAdapter.IdOrAbsent | src/poc/modules/agent-adapter.ts:30-31 | an absent id reads as the fallback |
| AgentAdapter.DefaultConfig | src/poc/modules/agent-adapter.ts:30-48 | with no options the configuration is built with `orchestrator`, `aggregator` and the reviewers `codex` and `claude` |
| AgentAdapter.BuildAcl | src/poc/modules/agent-adapter.ts:109-128 | task assignments and control come only from the orchestrator, review results only from the reviewers, aggregation results only from the aggregator, and errors from any principal, listed once each in order of first appearance: orchestrator, aggregator, then the reviewers |
| RuntimeMain.LastIndex | src/poc/runtime-main.ts:7-18 | the position found holds the name and no later position does; none is found exactly when the name does not occur |
| RuntimeMain.ReadArg | src/poc/runtime-main.ts:7-18 | the backward scan returns the element after the last occurrence of the name, or the default when the name is absent or ends the arguments |
| RuntimeMain.ReadArgLastWins | src/poc/runtime-main.ts:7-18 | an appended `name value` pair decides the value, except a value equal to the name, which reads as the default |
| RuntimeMain.ReadArgAbsent | src/poc/runtime-main.ts:7-18 | a name that does not occur reads as the default |
| RuntimeMain.ReadArgTrailing | src/poc/runtime-main.ts:12-14 | a name at the end reads as the default even when an earlier occurrence had a value |
| RuntimeMain.ReadArgAppendOther | src/poc/runtime-main.ts:7-18 | arguments that do not mention the name leave its value unchanged |
| RuntimeMain.ReadArgPair | src/poc/runtime-main.ts:7-18 | a `name value` pair followed by arguments without the name is what is read |
| RuntimeMain.ReviewerMode | src/poc/runtime-main.ts:53 | the runtime runs `cli` reviewers exactly for the argument `cli`, and `deterministic` otherwise |
| RuntimeMain.CliHomeMode | src/poc/runtime-main.ts:75 | the CLI home is `host` exactly for the argument `host`, and `isolated` otherwise |
| RuntimeMain.ReviewerModeOf | src/poc/runtime-main.ts:34-53 | the mode is `cli` exactly when the last `--reviewer-mode` value is `cli` |
| RuntimeMain.CliHomeModeOf | src/poc/runtime-main.ts:41-75 | the home mode is `host` exactly when the last `--cli-home-mode` value is `host` |
| RuntimeMain.ConfigPath | src/poc/runtime-main.ts:42-43 | the trimmed `--agents-config-json` wins when it is not blank, and otherwise the trimmed `--agent-profiles-json` is used |
| RuntimeMain.DerivedConfig | src/poc/runtime-main.ts:44-48 | a configuration is derived exactly from a document whose `agents` is an array and whose `version` is numerically 1, and it is the agent-definition policy's result |
| RuntimeMain.OperationalGate | src/poc/runtime-main.ts:84-91 | each gate holds exactly under its condition: authentication failures first, then network, then execution, and `healthy` when none was counted |
| RuntimeMain.HealthyIffNoFailures | src/poc/runtime-main.ts:84-91 | counts whose total is the sum of the three classes are `healthy` exactly when the total is zero |
| RuntimeMain.StoreGate | src/poc/runtime-main.ts:82-91 | for the counts the store tallies over a task's reviews, the gate is `healthy` exactly when no failure was counted |
| RuntimeMain.ExitCode | src/poc/runtime-main.ts:130-133 | the exit code is 1 exactly when no final decision was reached, and 0 otherwise |
| AgentDefinitionPolicy.RoleAllowed | src/poc/modules/agent-definition-policy.ts:40-51 | a default allow-list exists exactly for the ten roles; the eight worker roles may send task assignments and review results, the aggregator review and aggregation results, the orchestrator task assignments, aggregation results, control and errors |
| AgentDefinitionPolicy.DefaultCommandTemplateFor | src/poc/modules/agent-definition-policy.ts:70-84 | the default command starts with the provider's CLI, which then ends with the prompt, exactly for `codex` and `claude`; any other provider runs the node script of the aggregator, the orchestrator or a worker by role |
| AgentDefinitionPolicy.DefaultFieldsDistinct | src/poc/modules/agent-definition-policy.ts:53-60 | the built-in env profiles have distinct keys |
| AgentDefinitionPolicy.SetField | src/poc/modules/agent-definition-policy.ts:104-113 | assigning a property gives it the new value and leaves every other property as it was |
| AgentDefinitionPolicy.SpreadLookup | src/poc/modules/agent-definition-policy.ts:104-113 | in an object spread the later object's property wins and the earlier one shows through where the later one lacks the key |
| AgentDefinitionPolicy.AbsentKey | src/poc/modules/agent-definition-policy.ts:104-107 | a key an object lacks reads as `undefined` |
| AgentDefinitionPolicy.ResolveEnv | src/poc/modules/agent-definition-policy.ts:96-115 | the env resolves exactly when its trimmed profile name (the explicit one, else the provider's default) is built in or a truthy custom profile, and then keeps that name; otherwise the error names the agent and the profile |
| AgentDefinitionPolicy.EnvPrecedence | src/poc/modules/agent-definition-policy.ts:104-114 | each env key takes the agent's own value, else the custom profile's, else the built-in profile's; a spread string or array contributes its index keys `0`, `1`, … with its characters or items as values, and a spread of any other non-object contributes nothing |
| AgentDefinitionPolicy.SpreadFieldsDistinct | src/poc/modules/agent-definition-policy.ts:104-114 | the keys a spread contributes are distinct: index keys always, an object's when its own are |
| AgentDefinitionPolicy.DefaultEnvProfile | src/poc/modules/agent-definition-policy.ts:86-101 | an agent without `env_profile` uses its provider's default profile, which always resolves |
| AgentDefinitionPolicy.DefaultProfileExists | src/poc/modules/agent-definition-policy.ts:53-94 | every provider's default profile name is built in and already trimmed |
| AgentDefinitionPolicy.TrimmedAll | src/poc/modules/agent-definition-policy.ts:67 | every value becomes its trimmed string form, in order |
| AgentDefinitionPolicy.DropEmpty | src/poc/modules/agent-definition-policy.ts:67 | exactly the non-empty strings are kept |
| AgentDefinitionPolicy.Unique | src/poc/modules/agent-definition-policy.ts:66-68 | the result holds each non-empty trimmed value exactly once and nothing else |
| AgentDefinitionPolicy.TrimmedAllTrimmed | src/poc/modules/agent-definition-policy.ts:67 | the trimmed strings are fixed points of trimming |
| AgentDefinitionPolicy.StrValuesIn | src/poc/modules/agent-definition-policy.ts:164 | a string is among the string values exactly when it is among the strings |
| AgentDefinitionPolicy.ListOr | src/poc/modules/agent-definition-policy.ts:134-141 | a non-empty array is used as given and anything else falls back to the default |
| AgentDefinitionPolicy.WithResolved | src/poc/modules/agent-definition-policy.ts:143-149 | the checked agent carries the resolved allow-list, command, profile name and env, and every other property of the agent unchanged |
| AgentDefinitionPolicy.CheckAgentMeaning | src/poc/modules/agent-definition-policy.ts:123-149 | an agent passes exactly when it has a truthy id, a known role, a known provider and a resolvable env profile; each failure carries the source's message, checked in the source's order; a passing agent gets its de-duplicated allow-list (its own or the role's), its command template (its own or the default), the resolved profile and env, and keeps every other property |
| AgentDefinitionPolicy.ApplyAgentDefinitionPolicy | src/poc/modules/agent-definition-policy.ts:117-152 | the document is accepted exactly when its agents resolve; it then holds the checked agents and every other property unchanged, and otherwise the first error |
| AgentDefinitionPolicy.ResolveAgentsMeaning | src/poc/modules/agent-definition-policy.ts:117-150 | agents resolve exactly when they form a non-empty array of which every agent passes; an empty or missing list gives the non-empty-agents message; the result keeps one checked agent per agent in order, and a failure is the first failing agent's |
| AgentDefinitionPolicy.Candidates | src/poc/modules/agent-definition-policy.ts:159-165 | the reviewer candidates are exactly the agents that are neither aggregator nor orchestrator and may send review results |
| AgentDefinitionPolicy.ReviewerItem | src/poc/modules/agent-definition-policy.ts:166-183 | a candidate becomes a reviewer entry exactly when its provider is `codex` or `claude`, and the entry copies its properties, with `name` as the display name |
| AgentDefinitionPolicy.ReviewerItemsMeaning | src/poc/modules/agent-definition-policy.ts:166-183 | the reviewer entries exist exactly when every candidate has a CLI provider, and are then one per candidate in order |
| AgentDefinitionPolicy.FirstWithRole | src/poc/modules/agent-definition-policy.ts:184-185 | the found agent has the role and no earlier agent has it; none found means no agent has it |
| AgentDefinitionPolicy.BuildRuntimeAgentConfigFromDefinitions | src/poc/modules/agent-definition-policy.ts:154-195 | a rejected document gives the policy's error; a built configuration comes with the resolved document |
| AgentDefinitionPolicy.LocalReviewerFails | src/poc/modules/agent-definition-policy.ts:166-171 | a reviewer-capable agent with the `local` provider makes the build fail |
| AgentDefinitionPolicy.BuildReviewers | src/poc/modules/agent-definition-policy.ts:159-190 | with candidates, the runtime's reviewers are the candidates, one each, in order, with their trimmed ids |
| AgentDefinitionPolicy.BuildDefaultReviewers | src/poc/modules/agent-definition-policy.ts:186-190 | with no candidates, the runtime falls back to the reviewers `codex` and `claude` |
| AgentDefinitionPolicy.BuildPrincipals | src/poc/modules/agent-definition-policy.ts:184-190 | the orchestrator and aggregator ids come from the first agent with that role, falling back to `orchestrator` and `aggregator` |
| AgentDefinitionPolicy.WorkerIsCandidate | src/poc/modules/agent-definition-policy.ts:133-165 | a checked worker-role agent that keeps its role's default allow-list is a reviewer candidate |
| PocRuntime.ConfigOf | src/poc/runtime.ts:503-517 | without options both reviewers are required, the task id is checked on reviews and aggregations, reviewers are deterministic, and a model hint is kept only when it is not blank |
| PocRuntime.ParentOf | src/poc/runtime.ts:568-570 | a parent id is set exactly when one is given and it is not empty |
| PocRuntime.CreateEnvelope | src/poc/runtime.ts:539-573 | a new envelope takes a fresh message id and carries the given task, sender, recipient, type, payload, state version and parent; each envelope takes three inputs (a time and two uuids) |
| PocRuntime.CreatedSigned | src/poc/runtime.ts:549-572 | a created envelope carries a valid signature and a sender that agrees with its `from`, instance and key |
| PocRuntime.ReviewEnvelope | src/poc/runtime.ts:961-969 | a reviewer answers with a `review_result` to the aggregator, for the assignment's task, one state version later, with the assignment as its parent |
| PocRuntime.RequiredRows | src/poc/runtime.ts:1013 | once every required reviewer has reviewed, the rows are the required reviewers' reviews, in the order they are required |
| PocRuntime.StrArr | src/poc/runtime.ts:1031-1032 | a list of names becomes an array of the same strings |
| PocRuntime.SourceIds | src/poc/runtime.ts:1039 | the source ids are the reviews' message ids, in order |
| PocRuntime.AggregationEnvelope | src/poc/runtime.ts:1042-1050 | the aggregator answers with an `aggregation_result` to the orchestrator, for the review's task, one state version later, with the review as its parent |
| PocRuntime.Loop | src/poc/runtime.ts:873-972 | handling the consumed messages one by one keeps every directory's file names in order |
| PocRuntime.Pass | src/poc/runtime.ts:870-874 | one agent's turn (consume at most 100, handle each) keeps the file names in order |
| PocRuntime.OnePass | src/poc/runtime.ts:1095-1102 | one pass keeps the file names in order |
| PocRuntime.OnePassInTurn | src/poc/runtime.ts:1095-1102 | a pass runs codex, claude, the aggregator and the orchestrator in that order and adds up their actions |
| PocRuntime.StepActions | src/poc/runtime.ts:873-891 | every consumed message counts one action, or two when the agent answered it |
| PocRuntime.DuplicateIsAckedOnly | src/poc/runtime.ts:881-891 | a valid message whose receipt is already stored is only acknowledged, for one action |
| PocRuntime.InvalidIsQuarantined | src/poc/runtime.ts:690-700 | an invalid message is moved to the dead-letter box with its rejection code and appended to the quarantine log, and nothing else in the store changes, for one action |
| PocRuntime.FreshAssignmentAnswered | src/poc/runtime.ts:881-971 | a fresh, valid assignment is receipted, acknowledged and answered with a review to the aggregator, for two actions |
| PocRuntime.DeterministicAnswer | src/poc/runtime.ts:932-958 | a deterministic reviewer's review names the task and fails, with `rework` and the `TEST_MISSING` finding, exactly when the instruction carries its force-fail marker |
| PocRuntime.CliFailureAnswer | src/poc/runtime.ts:902-929 | a CLI reviewer that fails or crashes answers FAIL with `manual_review_required` and one finding with the classified error code, or the execution error for a crash |
| PocRuntime.CliPayloadAnswer | src/poc/runtime.ts:898-901 | a CLI reviewer's output is normalised: it names the task, is FAIL exactly when the output said FAIL, and carries a known next action |
| PocRuntime.AggregationObjectGets | src/poc/runtime.ts:1028-1040 | the aggregation payload carries the task, the required and received reviewers, quorum, the decision, the time and the source ids |
| PocRuntime.AggregationObjectWellFormed | src/poc/runtime.ts:1028-1040 | the aggregation payload is a JSON value with distinct keys |
| PocRuntime.QuorumSorted | src/poc/runtime.ts:1004-1005 | sorting the received reviewers does not change whether the quorum is reached |
| PocRuntime.AggregationGate | src/poc/runtime.ts:1002-1011 | a fresh review is recorded, and an aggregation is published exactly when all required reviewers have reviewed and none was published for the task yet |
| PocRuntime.AggregationPublished | src/poc/runtime.ts:1042-1053 | a published aggregation goes to the orchestrator's inbox and marks the task, after which no second aggregation can be published |
| PocRuntime.RequiredDecision | src/poc/runtime.ts:1013-1026 | with the quorum reached, the decision is FAIL exactly when some required reviewer's review failed or had blocking findings, and counts their blocking findings |
| PocRuntime.AggregationPayload | src/poc/runtime.ts:1013-1040 | the published payload carries the decision over the required reviewers' rows, the sorted received reviewers and the source message ids |
| PocRuntime.StepKeepsClosed | src/poc/runtime.ts:1009-1052 | once a task's aggregation is published, handling any message keeps it published |
| PocRuntime.ClosedGuardPublishesNothing | src/poc/runtime.ts:1009-1011 | an aggregator message for a task whose aggregation is published publishes nothing |
| PocRuntime.LoopKeepsClosed | src/poc/runtime.ts:979-1054 | a whole turn keeps a published task published |
| PocRuntime.PassKeepsClosed | src/poc/runtime.ts:976-1056 | one agent's pass keeps a published task published |
| PocRuntime.PassesKeepsClosed | src/poc/runtime.ts:1095-1102 | several agents' passes keep a published task published |
| PocRuntime.AdvanceKeepsClosed | src/poc/runtime.ts:1095-1102 | one pass of the loop keeps a published task published |
| PocRuntime.IterateKeepsClosed | src/poc/runtime.ts:1104-1116 | once published, a task stays published for every later pass, so at most one aggregation is ever published per task |
| PocRuntime.LoopActions | src/poc/runtime.ts:873-888 | every consumed message counts at least one action |
| PocRuntime.PassIdle | src/poc/runtime.ts:870-974 | an agent's pass does nothing exactly when its inbox is empty, and then changes nothing |
| PocRuntime.PassesIdle | src/poc/runtime.ts:1095-1102 | several passes do nothing exactly when all their inboxes are empty, and then change nothing |
| PocRuntime.OnePassIdle | src/poc/runtime.ts:1095-1102 | a pass does nothing exactly when all four inboxes are empty, and then changes nothing |
| PocRuntime.QuietIsFixed | src/poc/runtime.ts:1111-1113 | a pass with no actions leaves the world as it was |
| PocRuntime.QuietStaysQuiet | src/poc/runtime.ts:1104-1116 | after a quiet pass every later pass is quiet and the world stays the same |
| PocRuntime.BusyGrows | src/poc/runtime.ts:1107-1114 | the loop keeps the fact that every pass before the last did something |
| PocRuntime.QuietSettles | src/poc/runtime.ts:1111-1113 | once a pass did nothing, the world it found is the world from then on |
| PocRuntime.StoredAccepted | src/poc/runtime.ts:106-133 | an envelope that names its task in its payload, is signed, has a consistent sender allowed for its type and is routed to its recipient passes validation after its file round trip |
| PocRuntime.ReviewPayloadNamesTask | src/poc/runtime.ts:896-959 | every review, in every mode, is a JSON value that names the assignment's task |
| PocRuntime.ReviewAccepted | src/poc/runtime.ts:961-970 | the review a reviewer publishes passes the aggregator's validation |
| PocRuntime.AggregationAccepted | src/poc/runtime.ts:1042-1051 | the aggregation the aggregator publishes passes the orchestrator's validation |
| RuntimeLoop.Assignment | src/poc/runtime.ts:667-683 | an assignment envelope takes the next fresh message id and three inputs |
| RuntimeLoop.SeedOne | src/poc/runtime.ts:666-686 | seeding one reviewer takes five inputs and returns the id of the assignment it published |
| RuntimeLoop.SeedTurn | src/poc/runtime.ts:666-686 | the seeding loop handles the reviewers one after another and collects their ids in order |
| RuntimeLoop.SeedIds | src/poc/runtime.ts:663-688 | seeding returns one message id per reviewer, each a fresh uuid drawn in turn |
| RuntimeLoop.SeedIdsDistinct | src/poc/runtime.ts:663-688 | with distinct uuids the two assignments of a task have distinct message ids |
| RuntimeLoop.AssignmentWellFormed | src/poc/runtime.ts:667-675 | the assignment payload is a JSON value that carries the instruction and no task id |
| RuntimeLoop.AssignmentInstruction | src/poc/runtime.ts:676-683 | an assignment goes from the orchestrator to its reviewer as a `task_assignment` of state version 1, without a parent, and its instruction survives the file |
| RuntimeLoop.AssignmentChecked | src/poc/runtime.ts:667-683 | an assignment passes validation exactly when task ids are not checked for assignments, as by default |
| RuntimeLoop.MismatchWellFormed | src/poc/runtime.ts:1129-1141 | the injected payload is a JSON value that names the other task |
| RuntimeLoop.MismatchRejected | src/poc/runtime.ts:1128-1152 | the injected review is rejected with `TASK_ID_MISMATCH` exactly when reviews are checked and the payload names a different task, and passes otherwise |
| RuntimeLoop.AggregationClosed | src/poc/runtime.ts:1002-1011 | without the quorum, or once the task's aggregation is published, a review is only recorded, for one action |
| RuntimeLoop.AggregationOpen | src/poc/runtime.ts:1002-1053 | with the quorum and an unpublished task, the review is recorded and an aggregation is published, for two actions |
| RuntimeLoop.StepSplit | src/poc/runtime.ts:873-894 | every message goes through the gate first, and only a first-seen message of the agent's expected type makes it act |
| RuntimeLoop.PassNumber | src/poc/runtime.ts:1107-1110 | each pass of the loop is one pass over the world the previous ones left, and the total adds up its actions |
| RuntimeLoop.Runtime.constructor | src/poc/runtime.ts:481-537 | a new runtime holds the configuration from its options, fresh mailbox directories for the four agents and the store loaded from its files |
| RuntimeLoop.Runtime.CreateEnvelope | src/poc/runtime.ts:539-573 | the method builds the envelope the function describes and advances the input counter the same way |
| RuntimeLoop.Runtime.Post | src/poc/modules/file-mailbox.ts:47-54 | publishing writes the envelope into the recipient's inbox and nothing else |
| RuntimeLoop.Runtime.HandleInvalid | src/poc/runtime.ts:690-700 | an invalid message is quarantined and moved to the dead-letter box, as the function describes |
| RuntimeLoop.Runtime.Admit | src/poc/runtime.ts:874-891 | the gate validates, receipts and acknowledges a message and reports whether it is fresh |
| RuntimeLoop.Runtime.ReviewPayload | src/poc/runtime.ts:897-959 | the review is the one the function computes for the mode, and the same inputs are drawn |
| RuntimeLoop.Runtime.Review | src/poc/runtime.ts:961-971 | the reviewer publishes its review envelope |
| RuntimeLoop.Runtime.Aggregate | src/poc/runtime.ts:1002-1053 | the aggregator records the review and publishes at most one aggregation, as the function describes, with its actions |
| RuntimeLoop.Runtime.BuildAggregation | src/poc/runtime.ts:1013-1050 | the method builds the aggregation envelope the function describes |
| RuntimeLoop.Runtime.PublishAggregation | src/poc/runtime.ts:1051-1052 | the aggregation is published and the task marked |
| RuntimeLoop.Runtime.Settle | src/poc/runtime.ts:1082-1090 | the orchestrator stores the final decision for the task |
| RuntimeLoop.Runtime.HandleMessage | src/poc/runtime.ts:873-972 | handling one message changes the system and counts actions as one step of the model |
| RuntimeLoop.Runtime.Process | src/poc/runtime.ts:870-974 | an agent's turn is one pass of the model for its role |
| RuntimeLoop.Runtime.ProcessReviewer | src/poc/runtime.ts:870-974 | a reviewer's turn is its pass in the model |
| RuntimeLoop.Runtime.ProcessAggregator | src/poc/runtime.ts:976-1056 | the aggregator's turn is its pass in the model |
| RuntimeLoop.Runtime.ProcessOrchestrator | src/poc/runtime.ts:1058-1093 | the orchestrator's turn is its pass in the model |
| RuntimeLoop.Runtime.RunOnePass | src/poc/runtime.ts:1095-1102 | one pass runs the four agents in order and adds their actions |
| RuntimeLoop.Runtime.RunPass | src/poc/runtime.ts:1108-1113 | one iteration of the loop is the next pass of the model; a pass without actions leaves the world settled |
| RuntimeLoop.Runtime.RunUntilStable | src/poc/runtime.ts:1104-1116 | the loop runs at most `maxPasses` passes, and at least one when that is positive; totals their actions, every pass but the last did something, and stopping early means the last pass was quiet and the world is settled for good |
| RuntimeLoop.Runtime.Assign | src/poc/runtime.ts:667-685 | one reviewer's assignment is published and its id returned |
| RuntimeLoop.Runtime.SeedAll | src/poc/runtime.ts:666-686 | the loop publishes one assignment per reviewer and returns their ids in order |
| RuntimeLoop.Runtime.SeedTask | src/poc/runtime.ts:663-688 | seeding a task reads the review input, then assigns both reviewers and returns the two message ids |
| RuntimeLoop.Runtime.DuplicateFirstInboxMessage | src/poc/runtime.ts:1118-1126 | with an empty inbox nothing happens; otherwise the first pending envelope is published again and its id returned |
| RuntimeLoop.Runtime.InjectTaskIdMismatchReview | src/poc/runtime.ts:1128-1152 | a review from codex whose payload names another task is published to the aggregator |
| RuntimeLoop.Runtime.BuildMismatch | src/poc/runtime.ts:1142-1149 | the method builds the injected envelope the function describes |
| RuntimeLoop.Runtime.GetFinalDecision | src/poc/runtime.ts:1154-1156 | a final decision is reported exactly when one was stored for the task |
| RuntimeLoop.Runtime.GetQuarantineRows | src/poc/runtime.ts:1158-1160 | the quarantine rows are the store's log |
| RuntimeLoop.Runtime.GetReceiptCount | src/poc/runtime.ts:1162-1164 | the receipt count is the number of stored receipts |
| RuntimeLoop.Runtime.GetReviewerFailureCounts | src/poc/runtime.ts:1166-1173 | the counts are the store's tally over the task's reviews, and their total is the sum of the three classes |
| RuntimeLoop.Runtime.DeadletterCount | src/poc/runtime.ts:1175-1177 | the count is the number of JSON files in the agent's dead-letter box |
| ParallelReview.SpanTextsIndex | agents/skills/mailbox-parallel-review/scripts/run_parallel_review.mjs:139 | one candidate text per span, the slice the span marks |
| ParallelReview.ParseAllCases | agents/skills/mailbox-parallel-review/scripts/run_parallel_review.mjs:140-144 | at most one object per candidate: none when nothing parses, and the parse of each when all parse |
| ParallelReview.ParseAllFrom | agents/skills/mailbox-parallel-review/scripts/run_parallel_review.mjs:140-144 | every collected object is the parse of some candidate |
| ParallelReview.RestStep | agents/skills/mailbox-parallel-review/scripts/run_parallel_review.mjs:106-149 | one character of the scan adds the parse of the span it closes, if it parses |
| ParallelReview.ExtractJsonObjects | agents/skills/mailbox-parallel-review/scripts/run_parallel_review.mjs:99-151 | the imperative scan collects exactly the parsed top-level brace spans, in order |
| ParallelReview.StepInv | agents/skills/mailbox-parallel-review/scripts/run_parallel_review.mjs:109-148 | one character keeps the scanner's bookkeeping consistent, and a span it closes starts at an opening brace and ends at this closing one |
| ParallelReview.SpansFromShape | agents/skills/mailbox-parallel-review/scripts/run_parallel_review.mjs:106-149 | the spans found from any point are brace-delimited and follow one another without overlap |
| ParallelReview.SpansShape | agents/skills/mailbox-parallel-review/scripts/run_parallel_review.mjs:99-151 | every candidate starts with `{` and ends with `}`, and candidates do not overlap |
| ParallelReview.StateAtInv | agents/skills/mailbox-parallel-review/scripts/run_parallel_review.mjs:106-149 | after any prefix of the text, an open object (depth above 0) has `start` at a `{` read at depth 0 outside a string literal, and the depth has stayed positive since |
| ParallelReview.SpansFromTopLevel | agents/skills/mailbox-parallel-review/scripts/run_parallel_review.mjs:106-149 | every span found from any point on is a top-level object: it opens with a `{` read at depth 0 outside a string literal, the depth stays positive inside it and is back at 0 right after its `}` |
| ParallelReview.TopLevelInSpans | agents/skills/mailbox-parallel-review/scripts/run_parallel_review.mjs:128-148 | every top-level object of the text is among the spans found |
| ParallelReview.SpansTopLevel | agents/skills/mailbox-parallel-review/scripts/run_parallel_review.mjs:99-151 | the candidates are exactly the top-level objects, so a nested object is never a candidate of its own |
| ParallelReview.NestedObjectOneSpan | agents/skills/mailbox-parallel-review/scripts/run_parallel_review.mjs:128-148 | `{a{b}c}` gives the whole text as its one candidate, not the inner `{b}` |
| ParallelReview.NestedValueOneSpan | agents/skills/mailbox-parallel-review/scripts/run_parallel_review.mjs:124-148 | `{"a":{}}` gives the whole text as its one candidate |
| ParallelReview.QuotedTextIgnored | agents/skills/mailbox-parallel-review/scripts/run_parallel_review.mjs:109-122 | inside a string, characters other than a quote or a backslash change nothing |
| ParallelReview.EscapeSkipsNext | agents/skills/mailbox-parallel-review/scripts/run_parallel_review.mjs:110-117 | a backslash inside a string makes the next character not count |
| ParallelReview.StrayCloseIgnored | agents/skills/mailbox-parallel-review/scripts/run_parallel_review.mjs:135-137 | a closing brace outside any object is ignored |
| ParallelReview.NoOpenNoSpans | agents/skills/mailbox-parallel-review/scripts/run_parallel_review.mjs:128-134 | text without an opening brace yields no candidates |
| ParallelReview.BraceInStringValue | agents/skills/mailbox-parallel-review/scripts/run_parallel_review.mjs:109-127 | a brace inside a string value does not end the object |
| ParallelReview.LastMatch | agents/skills/mailbox-parallel-review/scripts/run_parallel_review.mjs:153-160 | the index found is accepted and no later value is; nothing is found exactly when no value is accepted |
| ParallelReview.PickLastMatching | agents/skills/mailbox-parallel-review/scripts/run_parallel_review.mjs:153-160 | the backward scan returns the last accepted value, or nothing |
| ParallelReview.StructuredJson | agents/skills/mailbox-parallel-review/scripts/run_parallel_review.mjs:162-170 | a truthy hit in standard output wins; otherwise the last accepted object of the joined output is used; whatever is returned was accepted |
| ParallelReview.ExtractStructuredJson | agents/skills/mailbox-parallel-review/scripts/run_parallel_review.mjs:162-170 | the method returns what the function describes |
| ParallelReview.LaterRejectedIgnored | agents/skills/mailbox-parallel-review/scripts/run_parallel_review.mjs:153-160 | values after the last accepted one do not matter |
| ParallelReview.RecordHitWins | agents/skills/mailbox-parallel-review/scripts/run_parallel_review.mjs:162-167 | with a matcher that accepts only records, a hit in standard output is always the answer |
| ParallelReview.ToInt | agents/skills/mailbox-parallel-review/scripts/run_parallel_review.mjs:172-178 | a value is accepted exactly when it reads as a positive number, and then gives that number; otherwise the error names the option and the value |
| ParallelReview.ToIntPrinted | agents/skills/mailbox-parallel-review/scripts/run_parallel_review.mjs:172-178 | a printed positive integer reads back as itself |
| ParallelReview.DefaultOptions | agents/skills/mailbox-parallel-review/scripts/run_parallel_review.mjs:181-200 | the defaults exist exactly when the buffer size from the environment (or 64) is a positive number; they then take the working directory, `cli` reviewers, the `host` home mode and no configuration files |
| ParallelReview.FlagOf | agents/skills/mailbox-parallel-review/scripts/run_parallel_review.mjs:228-260 | a recognised word is the name of the option it selects |
| ParallelReview.SetFlag | agents/skills/mailbox-parallel-review/scripts/run_parallel_review.mjs:228-257 | a numeric option is accepted exactly when its value is a positive number, with the `Invalid` message otherwise; any other option is always accepted |
| ParallelReview.SetNumber | agents/skills/mailbox-parallel-review/scripts/run_parallel_review.mjs:246-255 | a number is stored exactly when it was accepted, and the error passes through otherwise |
| ParallelReview.SetOption | agents/skills/mailbox-parallel-review/scripts/run_parallel_review.mjs:228-260 | an unrecognised option fails with `Unknown option`, and a recognised one is applied |
| ParallelReview.Consume | agents/skills/mailbox-parallel-review/scripts/run_parallel_review.mjs:202-262 | one step of the loop stops only on help or an error; otherwise it uses one word for a switch and two for an option with its value |
| ParallelReview.FinalCheck | agents/skills/mailbox-parallel-review/scripts/run_parallel_review.mjs:264-273 | the options pass exactly when both modes are known and not both configuration files are given, and each failure has the source's message in the source's order |
| ParallelReview.ParseArgsOf | agents/skills/mailbox-parallel-review/scripts/run_parallel_review.mjs:180-274 | a failing default stops everything with its message, and whatever is parsed passes the final checks |
| ParallelReview.ToBufferBytes | agents/skills/mailbox-parallel-review/scripts/run_parallel_review.mjs:276-278 | the byte count is a whole number of megabytes, the given number |
| ParallelReview.ParseArgs | agents/skills/mailbox-parallel-review/scripts/run_parallel_review.mjs:180-274 | the method returns what the function describes |
| ParallelReview.ScanLoop | agents/skills/mailbox-parallel-review/scripts/run_parallel_review.mjs:202-273 | the loop over the arguments, with the final checks, returns what the scan describes |
| ParallelReview.BuildRuntimeArgs | agents/skills/mailbox-parallel-review/scripts/run_parallel_review.mjs:307-367 | the method returns the fixed head and one pair per option that is set |
| ParallelReview.BuildCliArgs | agents/skills/mailbox-parallel-review/scripts/run_parallel_review.mjs:308-347 | in cli mode the method returns the words the function describes |
| ParallelReview.BuildDeterministicArgs | agents/skills/mailbox-parallel-review/scripts/run_parallel_review.mjs:349-366 | in deterministic mode the method returns the words the function describes |
| ParallelReview.PushConfig | agents/skills/mailbox-parallel-review/scripts/run_parallel_review.mjs:320-324 | the agents configuration is pushed when set, else the profiles when set |
| ParallelReview.PushText | agents/skills/mailbox-parallel-review/scripts/run_parallel_review.mjs:325-330 | a text option is pushed when it is not empty |
| ParallelReview.PushNumber | agents/skills/mailbox-parallel-review/scripts/run_parallel_review.mjs:331-342 | a numeric option is pushed, printed, when it is set |
| ParallelReviewFacts.ConsumePrefix | agents/skills/mailbox-parallel-review/scripts/run_parallel_review.mjs:202-262 | a step reads only the words it uses |
| ParallelReviewFacts.ScanAppend | agents/skills/mailbox-parallel-review/scripts/run_parallel_review.mjs:202-262 | scanning two pieces of arguments is scanning the second from the options the first left |
| ParallelReviewFacts.ParseAfter | agents/skills/mailbox-parallel-review/scripts/run_parallel_review.mjs:180-274 | after a prefix that parsed, the rest is scanned from the options the prefix left |
| ParallelReviewFacts.HelpWins | agents/skills/mailbox-parallel-review/scripts/run_parallel_review.mjs:204-207 | `--help` after any prefix that parsed ends parsing with help, whatever follows |
| ParallelReviewFacts.StrayWordFails | agents/skills/mailbox-parallel-review/scripts/run_parallel_review.mjs:221-223 | a word that is not an option fails with `Unknown argument` |
| ParallelReviewFacts.MissingValueFails | agents/skills/mailbox-parallel-review/scripts/run_parallel_review.mjs:220-226 | an option at the end, or followed by another option, fails with `Missing value` |
| ParallelReviewFacts.UnknownOptionFails | agents/skills/mailbox-parallel-review/scripts/run_parallel_review.mjs:258-260 | an unrecognised option with a value fails with `Unknown option` |
| ParallelReviewFacts.FlagNameShape | agents/skills/mailbox-parallel-review/scripts/run_parallel_review.mjs:228-257 | every option name starts with `--` and is neither help nor one of the switches |
| ParallelReviewFacts.OptionApplies | agents/skills/mailbox-parallel-review/scripts/run_parallel_review.mjs:228-273 | a final option with its value is applied and then the final checks decide |
| ParallelReviewFacts.InvalidNumberFails | agents/skills/mailbox-parallel-review/scripts/run_parallel_review.mjs:246-255 | a numeric option whose value is not a positive number fails with `Invalid <name>: <value>` |
| ParallelReviewFacts.LaterTaskIdWins | agents/skills/mailbox-parallel-review/scripts/run_parallel_review.mjs:230-231 | a later `--task-id` replaces an earlier one |
| ParallelReviewFacts.InvalidReviewerModeFails | agents/skills/mailbox-parallel-review/scripts/run_parallel_review.mjs:234-266 | an unknown reviewer mode is accepted by the loop and then rejected by the final check |
| ParallelReviewFacts.InvalidCliHomeModeFails | agents/skills/mailbox-parallel-review/scripts/run_parallel_review.mjs:236-269 | an unknown CLI home mode is rejected by the final check when the reviewer mode is known |
| ParallelReviewFacts.BothConfigsFail | agents/skills/mailbox-parallel-review/scripts/run_parallel_review.mjs:238-272 | giving both configuration files fails with the either-or message |
| ParallelReviewFacts.ReviewerModeChecked | agents/skills/mailbox-parallel-review/scripts/run_parallel_review.mjs:234-266 | the loop stores any reviewer mode, and the final check rejects an unknown one |
| ParallelReviewFacts.CliHomeModeChecked | agents/skills/mailbox-parallel-review/scripts/run_parallel_review.mjs:236-269 | the loop stores any CLI home mode, and the final check rejects an unknown one |
| ParallelReviewFacts.ProfilesChecked | agents/skills/mailbox-parallel-review/scripts/run_parallel_review.mjs:240-272 | a profiles file on top of an agents file is stored and then rejected |
| ParallelReviewFacts.ParsedPlain | agents/skills/mailbox-parallel-review/scripts/run_parallel_review.mjs:180-274 | no parsed text option starts with `--`, given that resolved paths never do |
| ParallelReviewFacts.ParsedPositive | agents/skills/mailbox-parallel-review/scripts/run_parallel_review.mjs:246-278 | every parsed number is positive, so the buffer is at least one megabyte |
| ParallelReviewFacts.ReadSlots | agents/skills/mailbox-parallel-review/scripts/run_parallel_review.mjs:307-367 | a pushed option reads back, through the runtime's `readArg`, as the value pushed |
| ParallelReviewFacts.ReadForwarded | agents/skills/mailbox-parallel-review/scripts/run_parallel_review.mjs:307-367 | the runtime reads each forwarded option as pushed, and its default otherwise |
| ParallelReviewFacts.SlotsForward | agents/skills/mailbox-parallel-review/scripts/run_parallel_review.mjs:307-367 | the values forwarded are the task and instruction always; in cli mode also the home mode, the non-empty models and the set numbers; the agents file when set, else the profiles file; and the number of passes when set |
| ParallelReviewFacts.RuntimeReadsForwarded | agents/skills/mailbox-parallel-review/scripts/run_parallel_review.mjs:307-367 | the runtime reads every forwarded option as `buildRuntimeArgs` passed it, and its default for one it did not pass |
| ParallelReviewFacts.RuntimeSeesDiffSwitch | agents/skills/mailbox-parallel-review/scripts/run_parallel_review.mjs:343-345 | the runtime sees `--include-full-git-diff` exactly in cli mode with the switch set |
| ParallelReviewFacts.ParsedForwardable | agents/skills/mailbox-parallel-review/scripts/run_parallel_review.mjs:180-274 | parsed options pass the final checks and can be forwarded word for word |
| ParallelReviewFacts.RuntimeSeesOptions | agents/skills/mailbox-parallel-review/scripts/run_parallel_review.mjs:307-367 | the runtime reads the task, the instruction, the number of passes, the home mode (its own `isolated` in deterministic mode) and the configuration path the runner chose |
| ParallelReviewFacts.RuntimeCliHomeMode | agents/skills/mailbox-parallel-review/scripts/run_parallel_review.mjs:317-318 | the runtime's home mode is the runner's in cli mode and its own default otherwise |
| ParallelReviewFacts.RuntimeConfigPath | agents/skills/mailbox-parallel-review/scripts/run_parallel_review.mjs:320-362 | the runtime reads the agents file when the runner had one, else the profiles file |
| ParallelReviewFacts.DeterministicParse | agents/skills/mailbox-parallel-review/scripts/run_parallel_review.test.mjs:135-158 | the deterministic test's command line parses into the deterministic options with four passes |
| ParallelReviewFacts.DeterministicRunArgs | agents/skills/mailbox-parallel-review/scripts/run_parallel_review.test.mjs:135-158 | those options give exactly the runtime command line the test expects |
| ParallelReviewFacts.CliParse | agents/skills/mailbox-parallel-review/scripts/run_parallel_review.test.mjs:46-97 | the cli test's command line parses into the options the test expects |
| ParallelReviewFacts.CliOptions | agents/skills/mailbox-parallel-review/scripts/run_parallel_review.test.mjs:46-97 | those options are cli mode, the `host` home, task `task-cli`, both models, 7 passes, the timeout, both character limits, a 96 MB buffer and the diff switch |
| ParallelReviewFacts.CliRunArgs | agents/skills/mailbox-parallel-review/scripts/run_parallel_review.test.mjs:46-97 | those options give exactly the runtime command line the test expects |
| ParallelReviewFacts.PrecedenceParse | agents/skills/mailbox-parallel-review/scripts/run_parallel_review.test.mjs:160-183 | the precedence test's command line parses with the resolved agents file |
| ParallelReviewFacts.PrecedenceRunArgs | agents/skills/mailbox-parallel-review/scripts/run_parallel_review.test.mjs:160-183 | with an agents file the profiles file is not forwarded, whatever it holds |

## Left out

- File system plumbing is not modelled: paths, `ensureDir`, directory creation in `init`, and JSON and JSONL file writing and reading. Each mailbox directory and each log is a value, so no disk is touched.
- The store's persistence is modelled as values: `FileStateStore.StateStore.constructor` takes the receipt log, quarantine log, review cache and task state read back from disk, as `init` does (`src/poc/modules/file-state-store.ts:43-63`, and the runtime's own store at `src/poc/runtime.ts:315-335`), and `FileStateStore.Loaded` rebuilds the receipts from the log. The mailbox is not reloaded: `FileMailbox.Mailbox.constructor` starts every directory empty, while the source's `init` keeps any inbox, ack and deadletter files left from an earlier run.
- Subprocesses are not modelled: `runCommand`, the `git` probes of `captureReviewInput` (`src/poc/runtime.ts:575-653`) and `executeReviewerCli`. The review input is a parameter. The reviewer CLI's outcome is the parameter `Env.cli`.
- The text handling around the reviewer CLI is not modelled: `buildReviewerPrompt`, `buildCliEnv`, `writeRawCliOutput`, `writeReviewInputArtifact` and `parseJsonLenient`. These only shape the text sent to, and read back from, the external tool.
- FileMailbox.Mailbox.Ack: requires the file to be in the agent's inbox, where the source's `renameSync` would throw `ENOENT`; every caller takes the file from that inbox's pending listing.
- FileMailbox.Mailbox.Nack: requires the file to be in the agent's inbox, where the source's `unlinkSync` would throw `ENOENT` after writing the deadletter file; every caller takes the file from that inbox's pending listing.
- The clock, `crypto.randomUUID()`, the SHA-256 hash and `JSON.parse` are function-valued parameters. UUIDs are only required to be non-empty (`PocRuntime.UuidsNonEmpty`).
- A `null` or non-object review payload reads as `undefined` fields in the model. In the source, the expressions that do not use `?.` would throw instead. With the default options such a message is already refused for its task id.
- Inherited `Object.prototype` names are not modelled. A message type, role or profile name such as `constructor` or `toString` would find an inherited member in the source. The model treats it as absent.
- A string spread into an env is split one character per index key. The model splits by code point and JavaScript by UTF-16 code unit, so the two differ only for characters outside the Basic Multilingual Plane.
- Strings compare by code point, while JavaScript's `sort()` compares UTF-16 code units. The two orders differ only for characters outside the Basic Multilingual Plane.
- `Object.keys` ordering of integer-like keys is not modelled: JavaScript lists such keys before the others, while the model keeps insertion order.
- Floating-point numbers are not modelled. `Number()` is modelled for optionally signed decimal integers and the empty string; any other text, including fractions, exponents, hexadecimal and `Infinity`, is `NaN`. Printed numbers are integers.
- ParallelReview.ToInt: it rejects a fractional value such as `7.5`, which the script accepts and floors to 7. This follows from the `Number()` subset above.
- PocRuntime.Advance: a pass is defined only on worlds whose directories are in name order. Any other world is left as it is. Every world the mailbox methods build is ordered (`FileMailbox.AckOrdered`, `FileMailbox.PutOrdered`).
- `runtime-main.ts` reads `getOrchestratorId`, `getAggregatorId`, `getReviewerProfiles` and `getDeadletterCounts` from the runtime (lines 110-116), and `src/poc/runtime.ts` defines none of them. The result object that `main` prints is therefore not modelled. Its operational gate and exit code are.
- From the runner script, `printHelp`, `runPreflight`, `runCommand`, `main` and the output they print or spawn are not modelled. `--help` and a failing option become the outcomes `Help` and `Failed`, standing in for `process.exit`.
- `path.resolve` is the parameter `Context.resolve`. The test facts need paths that do not start with a dash (`ParallelReviewFacts.PlainPaths`).
- The npm invocation words in front of the runtime's arguments are a fixed prefix (`ParallelReviewFacts.ScriptWords`).
- ParallelReviewFacts.PrecedenceParse: it is stated for any agents-file path that does not begin with a dash, rather than for the test's literal file name.
- `BuildRuntimeArgs` is modelled as one method per reviewer mode, each proved against the same argument function.

## Findings

| source | as written | input that shows it | evidently intended | confidence | as-written member | corrected member |
|---|---|---|---|---|---|---|
| src/poc/modules/file-state-store.ts:65-67 | the receipt key joins task id, agent id and message id with a bar character; `src/poc/runtime.ts:337-339` does the same | task `a\|b`, agent `c`, message `d` and then task `a`, agent `b\|c`, message `d`: the second receipt is refused as a duplicate | one receipt per distinct (task, agent, message) triple | not executed | FileStateStore.ReceiptKeyCollision | FileStateStore.InsertReceiptMeaning |
