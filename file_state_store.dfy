/** The idempotent state store: the receipt set that makes every message count
    once per (task, agent, message), the append-only quarantine log, the review
    cache keyed by task and reviewer, and the per-task row holding the
    aggregation guard and the final decision. */
module FileStateStore {
  import opened Wrappers
  import opened Text
  import opened JsonValue
  import opened StringOrder

  datatype ReceiptKey = ReceiptKey(taskId: string, agentId: string, msgId: string)

  /** A line of the receipt log. */
  datatype ReceiptRow = ReceiptRow(taskId: string, agentId: string, msgId: string, messageType: string, processedAt: string)

  function KeyOf(row: ReceiptRow): ReceiptKey {
    ReceiptKey(row.taskId, row.agentId, row.msgId)
  }

  function KeysOf(log: seq<ReceiptRow>): set<ReceiptKey> {
    set row | row in log :: KeyOf(row)
  }

  /** The key as the source writes it: the three parts joined with `|`. */
  function ReceiptKeyAsWritten(taskId: string, agentId: string, msgId: string): string {
    taskId + "|" + agentId + "|" + msgId
  }

  /** `insertReceipt` over the set of joined keys, as written. */
  function InsertReceiptAsWritten(keys: set<string>, taskId: string, agentId: string, msgId: string): (r: (bool, set<string>))
    ensures r.0 <==> ReceiptKeyAsWritten(taskId, agentId, msgId) !in keys
    ensures r.1 == keys + {ReceiptKeyAsWritten(taskId, agentId, msgId)}
  {
    var k := ReceiptKeyAsWritten(taskId, agentId, msgId);
    if k in keys then (false, keys) else (true, keys + {k})
  }

  /** Two different receipts share a joined key once a task id contains `|`:
      the second message is then taken for a duplicate of the first. */
  lemma ReceiptKeyCollision()
    ensures ReceiptKey("a|b", "c", "d") != ReceiptKey("a", "b|c", "d")
    ensures var (first, keys) := InsertReceiptAsWritten({}, "a|b", "c", "d");
      first && !InsertReceiptAsWritten(keys, "a", "b|c", "d").0
  {
    assert ReceiptKeyAsWritten("a|b", "c", "d") == ReceiptKeyAsWritten("a", "b|c", "d");
  }

  /** In `x + "|" + r` with no `|` in `x`, the first `|` is the one added. */
  lemma FirstBar(x: string, r: string)
    requires '|' !in x
    ensures (x + "|" + r)[|x|] == '|'
    ensures forall i :: 0 <= i < |x| ==> (x + "|" + r)[i] != '|'
  {
    forall i | 0 <= i < |x| ensures (x + "|" + r)[i] != '|' {
      assert (x + "|" + r)[i] == x[i];
    }
  }

  /** The joined key splits back at its first `|` when the head has none. */
  lemma SplitAtBar(x1: string, r1: string, x2: string, r2: string)
    requires '|' !in x1 && '|' !in x2
    requires x1 + "|" + r1 == x2 + "|" + r2
    ensures x1 == x2 && r1 == r2
  {
    var w := x1 + "|" + r1;
    FirstBar(x1, r1);
    FirstBar(x2, r2);
    if |x1| < |x2| {
      assert false;
    } else if |x2| < |x1| {
      assert false;
    }
    assert x1 == w[..|x1|] == x2;
    assert r1 == w[|x1| + 1..] == r2;
  }

  /** Without `|` in task and agent ids the joined key names one triple. */
  lemma ReceiptKeyAsWrittenInjective(t1: string, a1: string, m1: string, t2: string, a2: string, m2: string)
    requires '|' !in t1 && '|' !in a1 && '|' !in t2 && '|' !in a2
    requires ReceiptKeyAsWritten(t1, a1, m1) == ReceiptKeyAsWritten(t2, a2, m2)
    ensures t1 == t2 && a1 == a2 && m1 == m2
  {
    assert ReceiptKeyAsWritten(t1, a1, m1) == t1 + "|" + (a1 + "|" + m1);
    assert ReceiptKeyAsWritten(t2, a2, m2) == t2 + "|" + (a2 + "|" + m2);
    SplitAtBar(t1, a1 + "|" + m1, t2, a2 + "|" + m2);
    SplitAtBar(a1, m1, a2, m2);
  }

  /** The joined keys of a receipt set. */
  function JoinedKeys(receipts: set<ReceiptKey>): set<string> {
    set k | k in receipts :: ReceiptKeyAsWritten(k.taskId, k.agentId, k.msgId)
  }

  /** On receipts whose task and agent ids hold no `|`, the joined-key gate
      as written answers like the per-triple gate and keeps the same set. */
  lemma ReceiptGatesAgree(s: StoreState, t: string, a: string, m: string, ty: string, now: string)
    requires forall k :: k in s.receipts ==> '|' !in k.taskId && '|' !in k.agentId
    requires '|' !in t && '|' !in a
    ensures var (s1, first) := InsertReceiptState(s, t, a, m, ty, now);
      && InsertReceiptAsWritten(JoinedKeys(s.receipts), t, a, m).0 == first
      && InsertReceiptAsWritten(JoinedKeys(s.receipts), t, a, m).1 == JoinedKeys(s1.receipts)
  {
    var j := ReceiptKeyAsWritten(t, a, m);
    if j in JoinedKeys(s.receipts) {
      var k :| k in s.receipts && ReceiptKeyAsWritten(k.taskId, k.agentId, k.msgId) == j;
      ReceiptKeyAsWrittenInjective(k.taskId, k.agentId, k.msgId, t, a, m);
      assert k == ReceiptKey(t, a, m);
    } else {
      assert ReceiptKey(t, a, m) !in s.receipts;
      assert JoinedKeys(s.receipts + {ReceiptKey(t, a, m)}) == JoinedKeys(s.receipts) + {j};
    }
  }

  /** What `appendQuarantine` is given by the runtime. */
  datatype Rejection = Rejection(taskId: string, senderId: string, msgId: string, msgType: string, code: string, message: string)

  /** A quarantine line: the rejection plus the time it was written. */
  datatype QuarantineRow = QuarantineRow(rejection: Rejection, quarantinedAt: string)

  /** A cached review. `blockingCount` is a JavaScript number and may be NaN. */
  datatype ReviewRecord = ReviewRecord(
    msgId: string,
    verdict: Value,
    blockingCount: JsNum,
    nextAction: Value,
    hasExecutionError: bool,
    failureCodes: seq<string>)

  /** The reviews of one task, reviewer id to review, in insertion order. */
  type Reviews = seq<(string, ReviewRecord)>

  /** The decision the orchestrator stores for a task. */
  datatype Decision = Decision(
    taskId: string,
    verdict: Value,
    nextAction: Value,
    blockingCount: Value,
    disagree: Value,
    decidedAt: string)

  datatype TaskRow = TaskRow(aggregationPublishedMsgId: Option<string>, finalDecision: Option<Decision>, updatedAt: Option<string>)

  const EmptyRow := TaskRow(None, None, None)

  datatype StoreState = StoreState(
    receipts: set<ReceiptKey>,
    receiptLog: seq<ReceiptRow>,
    quarantine: seq<QuarantineRow>,
    reviewCache: map<string, Reviews>,
    taskState: map<string, TaskRow>)

  function ReviewerIds(rows: Reviews): (ids: seq<string>)
    ensures |ids| == |rows|
    ensures forall i :: 0 <= i < |rows| ==> ids[i] == rows[i].0
  {
    seq(|rows|, i requires 0 <= i < |rows| => rows[i].0)
  }

  ghost predicate StoreValid(s: StoreState) {
    && s.receipts == KeysOf(s.receiptLog)
    && forall t :: t in s.reviewCache ==> DistinctIds(s.reviewCache[t])
  }

  /** `/^REVIEWER_.*_ERROR$/.test(code)`: the anchors bind to the whole text
      and `.` matches anything but a line terminator. */
  predicate IsReviewerErrorCode(code: string) {
    && StartsWith(code, "REVIEWER_")
    && EndsWith(code, "_ERROR")
    && |code| >= 15
    && forall i :: 0 <= i < |code| ==> !IsLineTerminator(code[i])
  }

  /** `String(finding?.code ?? "")`. */
  function FindingCode(finding: Value): string {
    ToJsString(Coalesce(Get(finding, "code"), Str("")))
  }

  /** The codes of the findings that name a reviewer failure, in order. */
  function FailureCodesOf(findings: seq<Value>): (codes: seq<string>)
    ensures |codes| <= |findings|
    ensures forall c :: c in codes ==> IsReviewerErrorCode(c)
    ensures forall c :: c in codes <==> exists i :: 0 <= i < |findings| && FindingCode(findings[i]) == c && IsReviewerErrorCode(c)
  {
    if |findings| == 0 then []
    else
      var rest := FailureCodesOf(findings[1..]);
      assert forall i :: 1 <= i < |findings| ==> findings[i] == findings[1..][i - 1];
      var c := FindingCode(findings[0]);
      if IsReviewerErrorCode(c) then [c] + rest else rest
  }

  /** The cache row `recordReview` makes of a review payload. */
  function ReviewFromPayload(payload: Value, msgId: string): ReviewRecord {
    var blocking := Get(payload, "blocking");
    var codes := if blocking.Arr? then FailureCodesOf(blocking.items) else [];
    ReviewRecord(
      msgId,
      Get(payload, "verdict"),
      if blocking.Arr? then Int(|blocking.items|) else ToNumber(Coalesce(Get(payload, "blocking_count"), Num(0))),
      Get(payload, "next_action"),
      |codes| > 0,
      codes)
  }

  /** The blocking count is the number of blocking findings whenever they come
      as an array, and otherwise the numeric value of `blocking_count`, 0 when
      that is absent; an execution error is flagged exactly when some blocking
      finding carries a `REVIEWER_*_ERROR` code. */
  lemma ReviewFromPayloadMeaning(payload: Value, msgId: string)
    ensures var r := ReviewFromPayload(payload, msgId); var blocking := Get(payload, "blocking");
      && r.msgId == msgId
      && r.verdict == Get(payload, "verdict")
      && (blocking.Arr? ==> r.blockingCount == Int(|blocking.items|))
      && (!blocking.Arr? && Get(payload, "blocking_count") in {Undefined, Null} ==> r.blockingCount == Int(0))
      && (!blocking.Arr? && Get(payload, "blocking_count").Num? ==>
            r.blockingCount == Int(Get(payload, "blocking_count").n))
      && (r.hasExecutionError <==>
            blocking.Arr? && exists i :: 0 <= i < |blocking.items| && IsReviewerErrorCode(FindingCode(blocking.items[i])))
  {
    var r := ReviewFromPayload(payload, msgId);
    var blocking := Get(payload, "blocking");
    if blocking.Arr? {
      if exists i :: 0 <= i < |blocking.items| && IsReviewerErrorCode(FindingCode(blocking.items[i])) {
        var i :| 0 <= i < |blocking.items| && IsReviewerErrorCode(FindingCode(blocking.items[i]));
        assert FindingCode(blocking.items[i]) in r.failureCodes;
      }
      if r.hasExecutionError {
        assert r.failureCodes[0] in r.failureCodes;
      }
    }
  }

  function ReviewsOf(s: StoreState, taskId: string): Reviews {
    if taskId in s.reviewCache then s.reviewCache[taskId] else []
  }

  function FindReview(rows: Reviews, reviewerId: string): (r: Option<ReviewRecord>)
    ensures r.Some? <==> reviewerId in ReviewerIds(rows)
  {
    if |rows| == 0 then None
    else if rows[0].0 == reviewerId then Some(rows[0].1)
    else
      assert ReviewerIds(rows) == [rows[0].0] + ReviewerIds(rows[1..]);
      FindReview(rows[1..], reviewerId)
  }

  /** No reviewer id occurs twice, as in a JavaScript object. */
  predicate DistinctIds(rows: Reviews) {
    forall i, j :: 0 <= i < j < |rows| ==> rows[i].0 != rows[j].0
  }

  /** `rows[reviewerId] = record`: an existing key keeps its position, a new key
      goes last. */
  function Upsert(rows: Reviews, reviewerId: string, record: ReviewRecord): (r: Reviews)
    ensures (reviewerId, record) in r
    ensures forall p :: p in r ==> p == (reviewerId, record) || p in rows
  {
    if |rows| == 0 then [(reviewerId, record)]
    else if rows[0].0 == reviewerId then [(reviewerId, record)] + rows[1..]
    else [rows[0]] + Upsert(rows[1..], reviewerId, record)
  }

  lemma {:induction false} UpsertFind(rows: Reviews, reviewerId: string, record: ReviewRecord, other: string)
    ensures FindReview(Upsert(rows, reviewerId, record), other)
         == if other == reviewerId then Some(record) else FindReview(rows, other)
  {
    if |rows| > 0 && rows[0].0 != reviewerId {
      UpsertFind(rows[1..], reviewerId, record, other);
    }
  }

  /** The reviewer ids after an upsert are the old ones plus the new one. */
  lemma UpsertIds(rows: Reviews, reviewerId: string, record: ReviewRecord)
    ensures forall x :: x in ReviewerIds(Upsert(rows, reviewerId, record)) <==> x == reviewerId || x in ReviewerIds(rows)
  {
    forall x ensures x in ReviewerIds(Upsert(rows, reviewerId, record)) <==> x == reviewerId || x in ReviewerIds(rows) {
      UpsertFind(rows, reviewerId, record, x);
    }
  }

  lemma {:induction false} UpsertDistinct(rows: Reviews, reviewerId: string, record: ReviewRecord)
    requires DistinctIds(rows)
    ensures DistinctIds(Upsert(rows, reviewerId, record))
  {
    if |rows| > 0 && rows[0].0 != reviewerId {
      UpsertDistinct(rows[1..], reviewerId, record);
      var rest := Upsert(rows[1..], reviewerId, record);
      forall p | p in rest ensures p.0 != rows[0].0 {
        if p != (reviewerId, record) {
          var j :| 0 <= j < |rows[1..]| && rows[1..][j] == p;
          assert rows[j + 1] == p;
        }
      }
    }
  }

  function RowOf(s: StoreState, taskId: string): TaskRow {
    if taskId in s.taskState then s.taskState[taskId] else EmptyRow
  }

  /** The store right after `init`: the receipt set holds exactly the keys of
      the receipt log read from disk. */
  function Loaded(log: seq<ReceiptRow>, quarantine: seq<QuarantineRow>, reviewCache: map<string, Reviews>,
                  taskState: map<string, TaskRow>): (s: StoreState)
    ensures forall k :: k in s.receipts <==> exists i :: 0 <= i < |log| && KeyOf(log[i]) == k
  {
    StoreState(KeysOf(log), log, quarantine, reviewCache, taskState)
  }

  function InsertReceiptState(s: StoreState, taskId: string, agentId: string, msgId: string, msgType: string, now: string)
    : (StoreState, bool)
  {
    var k := ReceiptKey(taskId, agentId, msgId);
    if k in s.receipts then (s, false)
    else (s.(receipts := s.receipts + {k},
             receiptLog := s.receiptLog + [ReceiptRow(taskId, agentId, msgId, msgType, now)]), true)
  }

  /** The receipt gate: true the first time a key is offered and false every
      later time; the receipt count grows by one exactly on true; nothing but
      the receipts changes. */
  lemma InsertReceiptMeaning(s: StoreState, t: string, a: string, m: string, ty: string, now: string, now2: string)
    requires StoreValid(s)
    ensures var (s1, first) := InsertReceiptState(s, t, a, m, ty, now);
      && StoreValid(s1)
      && (first <==> ReceiptKey(t, a, m) !in s.receipts)
      && |s1.receipts| == |s.receipts| + (if first then 1 else 0)
      && ReceiptKey(t, a, m) in s1.receipts
      && !InsertReceiptState(s1, t, a, m, ty, now2).1
      && s1.quarantine == s.quarantine && s1.reviewCache == s.reviewCache && s1.taskState == s.taskState
  {
    var (s1, first) := InsertReceiptState(s, t, a, m, ty, now);
    if first {
      var row := ReceiptRow(t, a, m, ty, now);
      assert KeysOf(s.receiptLog + [row]) == KeysOf(s.receiptLog) + {KeyOf(row)} by {
        forall k ensures k in KeysOf(s.receiptLog + [row]) <==> k in KeysOf(s.receiptLog) + {KeyOf(row)} {
          if k in KeysOf(s.receiptLog + [row]) {
            var r :| r in s.receiptLog + [row] && KeyOf(r) == k;
            assert r in s.receiptLog || r == row;
          }
          if k in KeysOf(s.receiptLog) {
            var r :| r in s.receiptLog && KeyOf(r) == k;
            assert r in s.receiptLog + [row];
          }
          if k == KeyOf(row) {
            assert row in s.receiptLog + [row];
          }
        }
      }
    }
  }

  function AppendQuarantineState(s: StoreState, rejection: Rejection, now: string): StoreState {
    s.(quarantine := s.quarantine + [QuarantineRow(rejection, now)])
  }

  /** The quarantine log only grows, by one row at its end. */
  lemma AppendQuarantineMeaning(s: StoreState, rejection: Rejection, now: string)
    ensures var s1 := AppendQuarantineState(s, rejection, now);
      && |s1.quarantine| == |s.quarantine| + 1
      && s1.quarantine[..|s.quarantine|] == s.quarantine
      && s1.quarantine[|s.quarantine|] == QuarantineRow(rejection, now)
      && s1.(quarantine := s.quarantine) == s
  {
  }

  function RecordReviewState(s: StoreState, taskId: string, reviewerId: string, payload: Value, msgId: string): StoreState {
    s.(reviewCache := s.reviewCache[taskId := Upsert(ReviewsOf(s, taskId), reviewerId, ReviewFromPayload(payload, msgId))])
  }

  /** Recording a review replaces only the entry of that task and reviewer. */
  lemma RecordReviewMeaning(s: StoreState, t: string, r: string, payload: Value, m: string, t2: string, r2: string)
    requires StoreValid(s)
    ensures var s1 := RecordReviewState(s, t, r, payload, m);
      && StoreValid(s1)
      && FindReview(ReviewsOf(s1, t), r) == Some(ReviewFromPayload(payload, m))
      && ((t2, r2) != (t, r) ==> FindReview(ReviewsOf(s1, t2), r2) == FindReview(ReviewsOf(s, t2), r2))
      && (forall x :: x in ReviewerIds(ReviewsOf(s1, t)) <==> x == r || x in ReviewerIds(ReviewsOf(s, t)))
      && s1.(reviewCache := s.reviewCache) == s
  {
    var rec := ReviewFromPayload(payload, m);
    UpsertFind(ReviewsOf(s, t), r, rec, r);
    UpsertFind(ReviewsOf(s, t), r, rec, r2);
    UpsertDistinct(ReviewsOf(s, t), r, rec);
    UpsertIds(ReviewsOf(s, t), r, rec);
  }

  datatype FailureCounts = FailureCounts(authError: nat, networkError: nat, executionError: nat, total: nat)

  function AddCounts(a: FailureCounts, b: FailureCounts): FailureCounts {
    FailureCounts(a.authError + b.authError, a.networkError + b.networkError,
                  a.executionError + b.executionError, a.total + b.total)
  }

  /** What one code adds to the tally. */
  function CodeCount(code: string): FailureCounts {
    if code == "REVIEWER_AUTH_ERROR" then FailureCounts(1, 0, 0, 1)
    else if code == "REVIEWER_NETWORK_ERROR" then FailureCounts(0, 1, 0, 1)
    else if code == "REVIEWER_EXECUTION_ERROR" then FailureCounts(0, 0, 1, 1)
    else FailureCounts(0, 0, 0, 0)
  }

  function CodesCount(codes: seq<string>): FailureCounts {
    if |codes| == 0 then FailureCounts(0, 0, 0, 0)
    else AddCounts(CodesCount(codes[..|codes| - 1]), CodeCount(codes[|codes| - 1]))
  }

  function RowsCount(rows: Reviews): FailureCounts {
    if |rows| == 0 then FailureCounts(0, 0, 0, 0)
    else AddCounts(RowsCount(rows[..|rows| - 1]), CodesCount(rows[|rows| - 1].1.failureCodes))
  }

  function Occurrences(codes: seq<string>, c: string): nat {
    |set i | 0 <= i < |codes| && codes[i] == c|
  }

  /** Appending a code adds one occurrence of it and of nothing else. */
  lemma OccurrencesSnoc(codes: seq<string>, c: string)
    requires |codes| > 0
    ensures Occurrences(codes, c) ==
      Occurrences(codes[..|codes| - 1], c) + (if codes[|codes| - 1] == c then 1 else 0)
  {
    var init := codes[..|codes| - 1];
    var a := set i | 0 <= i < |init| && init[i] == c;
    var b := set i | 0 <= i < |codes| && codes[i] == c;
    if codes[|codes| - 1] == c {
      assert b == a + {|codes| - 1};
    } else {
      assert b == a;
    }
  }

  /** The total is the sum of the three classes, and each class counts the
      occurrences of its code; any other code contributes nothing. */
  lemma {:induction false} CodesCountMeaning(codes: seq<string>)
    ensures var c := CodesCount(codes);
      && c.total == c.authError + c.networkError + c.executionError
      && c.authError == Occurrences(codes, "REVIEWER_AUTH_ERROR")
      && c.networkError == Occurrences(codes, "REVIEWER_NETWORK_ERROR")
      && c.executionError == Occurrences(codes, "REVIEWER_EXECUTION_ERROR")
  {
    if |codes| > 0 {
      CodesCountMeaning(codes[..|codes| - 1]);
      OccurrencesSnoc(codes, "REVIEWER_AUTH_ERROR");
      OccurrencesSnoc(codes, "REVIEWER_NETWORK_ERROR");
      OccurrencesSnoc(codes, "REVIEWER_EXECUTION_ERROR");
    }
  }

  lemma {:induction false} RowsCountTotal(rows: Reviews)
    ensures var c := RowsCount(rows); c.total == c.authError + c.networkError + c.executionError
  {
    if |rows| > 0 {
      RowsCountTotal(rows[..|rows| - 1]);
      CodesCountMeaning(rows[|rows| - 1].1.failureCodes);
    }
  }

  /** A review whose codes are none of the three classes leaves the tally
      unchanged, whatever other `REVIEWER_*_ERROR` codes it carries. */
  lemma {:induction false} OtherCodesIgnored(codes: seq<string>)
    requires forall i :: 0 <= i < |codes| ==> CodeCount(codes[i]) == FailureCounts(0, 0, 0, 0)
    ensures CodesCount(codes) == FailureCounts(0, 0, 0, 0)
  {
    if |codes| > 0 {
      var init := codes[..|codes| - 1];
      assert forall i :: 0 <= i < |init| ==> init[i] == codes[i];
      OtherCodesIgnored(init);
    }
  }

  /** Exactly the three failure classes are tallied. */
  lemma CodeCountClasses(code: string)
    ensures CodeCount(code) == FailureCounts(0, 0, 0, 0) <==>
      code !in {"REVIEWER_AUTH_ERROR", "REVIEWER_NETWORK_ERROR", "REVIEWER_EXECUTION_ERROR"}
  {
  }

  /** The counter chain applied to one code: the three failure classes bump
      their own counter and the total, anything else is skipped. */
  method CountCode(before: FailureCounts, code: string) returns (counts: FailureCounts)
    ensures counts == AddCounts(before, CodeCount(code))
  {
    counts := before;
    if code == "REVIEWER_AUTH_ERROR" {
      counts := counts.(authError := counts.authError + 1, total := counts.total + 1);
    } else if code == "REVIEWER_NETWORK_ERROR" {
      counts := counts.(networkError := counts.networkError + 1, total := counts.total + 1);
    } else if code == "REVIEWER_EXECUTION_ERROR" {
      counts := counts.(executionError := counts.executionError + 1, total := counts.total + 1);
    }
  }

  /** The inner loop of `getReviewerFailureCounts`: one review's codes added
      to the running tally. */
  method TallyCodes(start: FailureCounts, codes: seq<string>) returns (counts: FailureCounts)
    ensures counts == AddCounts(start, CodesCount(codes))
  {
    counts := start;
    var j := 0;
    while j < |codes|
      invariant 0 <= j <= |codes|
      invariant counts == AddCounts(start, CodesCount(codes[..j]))
    {
      assert codes[..j + 1][..j] == codes[..j];
      counts := CountCode(counts, codes[j]);
      j := j + 1;
    }
    assert codes[..j] == codes;
  }

  /** The aggregation guard: open while no non-empty message id is recorded. */
  function CanPublishOf(s: StoreState, taskId: string): bool {
    var id := RowOf(s, taskId).aggregationPublishedMsgId;
    id.None? || id.value == ""
  }

  function MarkAggregationPublishedState(s: StoreState, taskId: string, msgId: string, now: string): StoreState {
    var row := RowOf(s, taskId);
    s.(taskState := s.taskState[taskId := row.(aggregationPublishedMsgId := Some(msgId), updatedAt := Some(now))])
  }

  function SetFinalDecisionState(s: StoreState, taskId: string, decision: Decision, now: string): StoreState {
    var row := RowOf(s, taskId);
    s.(taskState := s.taskState[taskId := row.(finalDecision := Some(decision), updatedAt := Some(now))])
  }

  function FinalDecisionOf(s: StoreState, taskId: string): Option<Decision> {
    RowOf(s, taskId).finalDecision
  }

  /** Marking with a non-empty id closes the guard of that task, and only of
      that task; the final decision is kept. */
  lemma MarkAggregationPublishedMeaning(s: StoreState, t: string, m: string, now: string, t2: string)
    ensures var s1 := MarkAggregationPublishedState(s, t, m, now);
      && (CanPublishOf(s1, t) <==> m == "")
      && (t2 != t ==> CanPublishOf(s1, t2) == CanPublishOf(s, t2) && RowOf(s1, t2) == RowOf(s, t2))
      && FinalDecisionOf(s1, t) == FinalDecisionOf(s, t)
      && s1.(taskState := s.taskState) == s
  {
  }

  /** A task nobody wrote has an open guard and no decision. */
  lemma UnknownTask(s: StoreState, t: string)
    requires t !in s.taskState
    ensures CanPublishOf(s, t) && FinalDecisionOf(s, t) == None
  {
  }

  /** The decision read back is the last one set; setting it keeps the
      aggregation guard of the task and touches no other task. */
  lemma SetFinalDecisionMeaning(s: StoreState, t: string, d: Decision, now: string, t2: string)
    ensures var s1 := SetFinalDecisionState(s, t, d, now);
      && FinalDecisionOf(s1, t) == Some(d)
      && RowOf(s1, t).aggregationPublishedMsgId == RowOf(s, t).aggregationPublishedMsgId
      && CanPublishOf(s1, t) == CanPublishOf(s, t)
      && (t2 != t ==> RowOf(s1, t2) == RowOf(s, t2))
      && s1.(taskState := s.taskState) == s
  {
  }

  /** The store object; its collections are fields its methods update. */
  class StateStore {
    var receipts: set<ReceiptKey>
    var receiptLog: seq<ReceiptRow>
    var quarantine: seq<QuarantineRow>
    var reviewCache: map<string, Reviews>
    var taskState: map<string, TaskRow>

    function State(): StoreState
      reads this
    {
      StoreState(receipts, receiptLog, quarantine, reviewCache, taskState)
    }

    ghost predicate Valid()
      reads this
    {
      StoreValid(State())
    }

    /** `init`: the receipt set is rebuilt from the receipt log, the caches are
        the contents of their files (objects, so a reviewer id occurs once). */
    constructor (log: seq<ReceiptRow>, rows: seq<QuarantineRow>, cache: map<string, Reviews>, tasks: map<string, TaskRow>)
      requires forall t :: t in cache ==> DistinctIds(cache[t])
      ensures Valid()
      ensures State() == Loaded(log, rows, cache, tasks)
    {
      receipts := KeysOf(log);
      receiptLog := log;
      quarantine := rows;
      reviewCache := cache;
      taskState := tasks;
    }

    method InsertReceipt(taskId: string, agentId: string, msgId: string, msgType: string, now: string)
      returns (inserted: bool)
      requires Valid()
      modifies this
      ensures Valid()
      ensures (State(), inserted) == InsertReceiptState(old(State()), taskId, agentId, msgId, msgType, now)
    {
      InsertReceiptMeaning(State(), taskId, agentId, msgId, msgType, now, now);
      var key := ReceiptKey(taskId, agentId, msgId);
      if key in receipts {
        return false;
      }
      receipts := receipts + {key};
      receiptLog := receiptLog + [ReceiptRow(taskId, agentId, msgId, msgType, now)];
      return true;
    }

    function ReceiptCount(): nat
      reads this
    {
      |receipts|
    }

    method AppendQuarantine(rejection: Rejection, now: string)
      requires Valid()
      modifies this
      ensures Valid()
      ensures State() == AppendQuarantineState(old(State()), rejection, now)
    {
      quarantine := quarantine + [QuarantineRow(rejection, now)];
    }

    function QuarantineRows(): seq<QuarantineRow>
      reads this
    {
      quarantine
    }

    method RecordReview(taskId: string, reviewerId: string, payload: Value, msgId: string)
      requires Valid()
      modifies this
      ensures Valid()
      ensures State() == RecordReviewState(old(State()), taskId, reviewerId, payload, msgId)
    {
      RecordReviewMeaning(State(), taskId, reviewerId, payload, msgId, taskId, reviewerId);
      var rows := if taskId in reviewCache then reviewCache[taskId] else [];
      reviewCache := reviewCache[taskId := Upsert(rows, reviewerId, ReviewFromPayload(payload, msgId))];
    }

    function GetReviews(taskId: string): Reviews
      reads this
    {
      ReviewsOf(State(), taskId)
    }

    /** The outer loop of `getReviewerFailureCounts`, over the cached reviews. */
    method GetReviewerFailureCounts(taskId: string) returns (counts: FailureCounts)
      ensures counts == RowsCount(GetReviews(taskId))
      ensures counts.total == counts.authError + counts.networkError + counts.executionError
    {
      var rows := GetReviews(taskId);
      counts := FailureCounts(0, 0, 0, 0);
      var i := 0;
      while i < |rows|
        invariant 0 <= i <= |rows|
        invariant counts == RowsCount(rows[..i])
      {
        counts := TallyCodes(counts, rows[i].1.failureCodes);
        assert rows[..i + 1][..i] == rows[..i];
        i := i + 1;
      }
      assert rows[..i] == rows;
      RowsCountTotal(rows);
    }

    function CanPublishAggregation(taskId: string): bool
      reads this
    {
      CanPublishOf(State(), taskId)
    }

    method MarkAggregationPublished(taskId: string, msgId: string, now: string)
      requires Valid()
      modifies this
      ensures Valid()
      ensures State() == MarkAggregationPublishedState(old(State()), taskId, msgId, now)
    {
      var row := if taskId in taskState then taskState[taskId] else EmptyRow;
      taskState := taskState[taskId := row.(aggregationPublishedMsgId := Some(msgId), updatedAt := Some(now))];
    }

    method SetFinalDecision(taskId: string, decision: Decision, now: string)
      requires Valid()
      modifies this
      ensures Valid()
      ensures State() == SetFinalDecisionState(old(State()), taskId, decision, now)
    {
      var row := if taskId in taskState then taskState[taskId] else EmptyRow;
      taskState := taskState[taskId := row.(finalDecision := Some(decision), updatedAt := Some(now))];
    }

    function GetFinalDecision(taskId: string): Option<Decision>
      reads this
    {
      FinalDecisionOf(State(), taskId)
    }
  }
}
