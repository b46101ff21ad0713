/** The review payloads the runtime builds: the deterministic reviewer, the
    normalisation of a CLI reviewer's output, the payload that reports a CLI
    failure, the failure classification, and the aggregation decision rule. */
module ReviewPayloads {
  import opened Wrappers
  import opened Text
  import opened JsonValue
  import opened StringOrder
  import opened FileStateStore

  function Max(a: int, b: int): int {
    if a < b then b else a
  }

  /** The note put between the kept head and tail of a truncated text. */
  function TruncationMarker(removed: int): string {
    "\n\n...<truncated " + IntToString(removed) + " chars>...\n\n"
  }

  /** `truncateText`: keeps about three quarters of the budget from the start
      and the rest from the end, and says how much was cut. Lengths and cuts
      are in UTF-16 code units, as `length` and `slice` count them. */
  function TruncateText(text: seq<CodeUnit>, maxChars: int): seq<CodeUnit> {
    if maxChars <= 0 then []
    else if |text| <= maxChars then text
    else
      var head := Max(1, (maxChars * 3) / 4);
      var tail := Max(1, maxChars - head);
      text[..head] + Utf16(TruncationMarker(|text| - head - tail)) + text[|text| - tail..]
  }

  /** A text within the budget is returned as it is and a non-positive
      budget gives the empty text. Otherwise, for a budget of at least 2,
      exactly `maxChars` code units of the original survive: the first
      `floor(maxChars * 3 / 4)` (at least one), the remaining ones (at least
      one) from the end, and between them a marker naming how many were
      cut. */
  lemma TruncateTextMeaning(text: seq<CodeUnit>, maxChars: int)
    ensures maxChars <= 0 ==> TruncateText(text, maxChars) == []
    ensures 0 < maxChars && |text| <= maxChars ==> TruncateText(text, maxChars) == text
    ensures 2 <= maxChars ==> 1 <= (maxChars * 3) / 4 < maxChars
    ensures 2 <= maxChars < |text| ==>
      var h := (maxChars * 3) / 4;
      TruncateText(text, maxChars)
        == text[..h] + Utf16(TruncationMarker(|text| - maxChars)) + text[|text| - (maxChars - h)..]
  {
    if 2 <= maxChars < |text| {
      var h := (maxChars * 3) / 4;
      assert Max(1, h) == h;
      assert Max(1, maxChars - h) == maxChars - h;
    }
  }

  /** A budget of 1 on a longer text still keeps one code unit at each end. */
  lemma TruncateTextTiny(text: seq<CodeUnit>)
    requires |text| > 1
    ensures TruncateText(text, 1) == text[..1] + Utf16(TruncationMarker(|text| - 2)) + text[|text| - 1..]
  {
  }

  /** Every marker starts with a line feed. */
  lemma MarkerHead(removed: int)
    ensures |Utf16(TruncationMarker(removed))| > 0
    ensures Utf16(TruncationMarker(removed))[0] == '\n' as int as CodeUnit
  {
    var mk := TruncationMarker(removed);
    assert mk[0] == '\n';
    assert Utf16(mk) == Utf16Char(mk[0]) + Utf16(mk[1..]);
  }

  /** Three characters from U+10000 on are six code units, so a budget of 4
      truncates them: the cut falls inside the second character, whose high
      surrogate is kept right before the marker's line feed, and the last
      kept code unit is the low surrogate of the third character. */
  lemma TruncateTextSplitsPair(s: string)
    requires |s| == 3 && forall i :: 0 <= i < 3 ==> (s[i] as int) >= 0x1_0000
    ensures var r := TruncateText(Utf16(s), 4);
      && |Utf16(s)| == 6
      && r[..3] == Utf16(s)[..3] && IsHighSurrogate(r[2]) && r[3] == '\n' as int as CodeUnit
      && IsLowSurrogate(r[|r| - 1])
  {
    Utf16Astral(s);
    var u := Utf16(s);
    var m := Utf16(TruncationMarker(|u| - 4));
    var r := TruncateText(u, 4);
    TruncateTextMeaning(u, 4);
    MarkerHead(|u| - 4);
    assert r == u[..3] + m + u[5..];
    assert IsHighSurrogate(u[2 * 1]) && IsLowSurrogate(u[2 * 2 + 1]);
    assert r[2] == u[2] && r[3] == m[0] && r[|r| - 1] == u[5];
    assert r[..3] == u[..3];
  }

  const Severities: seq<Value> := [Str("critical"), Str("high"), Str("medium"), Str("low")]

  /** `String(x ?? fallback)`. */
  function TextOr(x: Value, fallback: string): string {
    ToJsString(Coalesce(x, Str(fallback)))
  }

  const FindingKeys: seq<string> := ["code", "title", "detail", "file_path", "line", "severity"]

  lemma FindingKeysDistinct()
    ensures Distinct(FindingKeys)
  {
  }

  /** A finding object, properties in the order the runtime writes them. */
  function FindingObject(code: string, title: string, detail: string, filePath: Value, line: Value,
                         severity: Value): Value {
    Obj([("code", Str(code)), ("title", Str(title)), ("detail", Str(detail)),
         ("file_path", filePath), ("line", line), ("severity", severity)])
  }

  /** Reading a property of a finding object gives the value it was built with. */
  lemma FindingObjectGets(code: string, title: string, detail: string, filePath: Value, line: Value,
                          severity: Value)
    ensures var f := FindingObject(code, title, detail, filePath, line, severity);
      && DistinctKeys(f.fields)
      && Get(f, "code") == Str(code) && Get(f, "title") == Str(title) && Get(f, "detail") == Str(detail)
      && Get(f, "file_path") == filePath && Get(f, "line") == line && Get(f, "severity") == severity
  {
    var f := FindingObject(code, title, detail, filePath, line, severity);
    assert Keys(f.fields) == FindingKeys;
    FindingKeysDistinct();
    KeysDistinct(f.fields, FindingKeys);
    forall j | 0 <= j < |f.fields| ensures Get(f, FindingKeys[j]) == f.fields[j].1 {
      LookupAt(f.fields, j);
    }
    assert FindingKeys[0] == "code" && FindingKeys[1] == "title" && FindingKeys[2] == "detail";
    assert FindingKeys[3] == "file_path" && FindingKeys[4] == "line" && FindingKeys[5] == "severity";
  }

  lemma FindingObjectWellFormed(code: string, title: string, detail: string, filePath: Value, line: Value,
                                severity: Value)
    requires WellFormed(filePath) && WellFormed(line) && WellFormed(severity)
    ensures WellFormed(FindingObject(code, title, detail, filePath, line, severity))
  {
    var f := FindingObject(code, title, detail, filePath, line, severity);
    assert Keys(f.fields) == FindingKeys;
    FindingKeysDistinct();
    KeysDistinct(f.fields, FindingKeys);
    forall i | 0 <= i < |f.fields| ensures WellFormed(f.fields[i].1) {
    }
  }

  /** `typeof x === "string" ? x : undefined`. */
  function StringOrAbsent(x: Value): (r: Value)
    ensures x.Str? ==> r == x
    ensures !x.Str? ==> r == Undefined
  {
    if x.Str? then x else Undefined
  }

  /** `Number.isInteger(x) && x > 0 ? x : undefined`. */
  function PositiveLine(x: Value): (r: Value)
    ensures x.Num? && x.n > 0 ==> r == x
    ensures !(x.Num? && x.n > 0) ==> r == Undefined
  {
    if x.Num? && x.n > 0 then x else Undefined
  }

  /** A known severity, `medium` otherwise. */
  function SeverityOf(x: Value): (r: Value)
    ensures r in Severities
    ensures x in Severities ==> r == x
    ensures x !in Severities ==> r == Str("medium")
  {
    if x in Severities then x else Str("medium")
  }

  /** One element of `toFindingArray`, at position `index`. */
  function NormalizeFinding(item: Value, index: nat): Value {
    FindingObject(
      TextOr(Get(item, "code"), "AUTO_" + NatToString(index + 1)),
      TextOr(Get(item, "title"), "Auto normalized finding"),
      TextOr(Get(item, "detail"), "No detail provided by reviewer output"),
      StringOrAbsent(Get(item, "file_path")),
      PositiveLine(Get(item, "line")),
      SeverityOf(Get(item, "severity")))
  }

  /** `toFindingArray`: anything but an array gives no findings. */
  function ToFindingArray(v: Value): (r: Value)
    ensures r.Arr?
    ensures |r.items| == if v.Arr? then |v.items| else 0
  {
    if v.Arr? then Arr(seq(|v.items|, i requires 0 <= i < |v.items| => NormalizeFinding(v.items[i], i)))
    else Arr([])
  }

  /** Each property of a normalised finding, read back. */
  lemma NormalizeFindingGets(item: Value, index: nat)
    ensures var f := NormalizeFinding(item, index);
      && DistinctKeys(f.fields)
      && Get(f, "code") == Str(TextOr(Get(item, "code"), "AUTO_" + NatToString(index + 1)))
      && Get(f, "title") == Str(TextOr(Get(item, "title"), "Auto normalized finding"))
      && Get(f, "detail") == Str(TextOr(Get(item, "detail"), "No detail provided by reviewer output"))
      && Get(f, "file_path") == StringOrAbsent(Get(item, "file_path"))
      && Get(f, "line") == PositiveLine(Get(item, "line"))
      && Get(f, "severity") == SeverityOf(Get(item, "severity"))
  {
    FindingObjectGets(
      TextOr(Get(item, "code"), "AUTO_" + NatToString(index + 1)),
      TextOr(Get(item, "title"), "Auto normalized finding"),
      TextOr(Get(item, "detail"), "No detail provided by reviewer output"),
      StringOrAbsent(Get(item, "file_path")),
      PositiveLine(Get(item, "line")),
      SeverityOf(Get(item, "severity")));
  }

  /** A normalised finding has string code, title and detail, a known
      severity, and keeps the string fields it was given; a missing code is
      numbered from 1 by position. */
  lemma NormalizeFindingMeaning(item: Value, index: nat)
    ensures var f := NormalizeFinding(item, index);
      && Get(f, "code").Str? && Get(f, "title").Str? && Get(f, "detail").Str?
      && Get(f, "severity") in Severities
      && (Get(item, "code").Str? ==> Get(f, "code") == Get(item, "code"))
      && (Get(item, "code") in {Undefined, Null} ==> Get(f, "code") == Str("AUTO_" + NatToString(index + 1)))
      && (Get(f, "file_path") == Undefined || Get(f, "file_path").Str?)
      && (Get(f, "line") == Undefined || (Get(f, "line").Num? && Get(f, "line").n > 0))
  {
    NormalizeFindingGets(item, index);
  }

  /** A normalised finding is its own normalisation. */
  lemma NormalizeFindingFixed(item: Value, index: nat)
    ensures NormalizeFinding(NormalizeFinding(item, index), index) == NormalizeFinding(item, index)
  {
    NormalizeFindingGets(item, index);
    var f := NormalizeFinding(item, index);
    NormalizeFindingGets(f, index);
  }

  lemma NormalizeFindingWellFormed(item: Value, index: nat)
    ensures WellFormed(NormalizeFinding(item, index))
  {
    FindingObjectWellFormed(
      TextOr(Get(item, "code"), "AUTO_" + NatToString(index + 1)),
      TextOr(Get(item, "title"), "Auto normalized finding"),
      TextOr(Get(item, "detail"), "No detail provided by reviewer output"),
      StringOrAbsent(Get(item, "file_path")),
      PositiveLine(Get(item, "line")),
      SeverityOf(Get(item, "severity")));
  }

  /** Normalising findings twice changes nothing. */
  lemma ToFindingArrayIdempotent(v: Value)
    ensures ToFindingArray(ToFindingArray(v)) == ToFindingArray(v)
  {
    var r := ToFindingArray(v);
    forall i | 0 <= i < |r.items| ensures NormalizeFinding(r.items[i], i) == r.items[i] {
      NormalizeFindingFixed(v.items[i], i);
    }
    assert ToFindingArray(r).items == r.items;
  }

  const AuthErrorCode := "REVIEWER_AUTH_ERROR"
  const NetworkErrorCode := "REVIEWER_NETWORK_ERROR"
  const ExecutionErrorCode := "REVIEWER_EXECUTION_ERROR"

  const AuthPatterns: seq<string> :=
    ["401 Unauthorized", "Invalid API key", "Missing bearer", "Please run /login", "authentication"]
  const NetworkPatterns: seq<string> :=
    ["network error", "stream disconnected", "timed out", "ECONN", "ENOTFOUND", "EAI_AGAIN", "ETIMEDOUT"]

  /** Some alternative of a case-insensitive pattern list occurs in `s`. */
  predicate MatchesAny(s: string, patterns: seq<string>) {
    exists i :: 0 <= i < |patterns| && ContainsIgnoreCase(s, patterns[i])
  }

  /** `classifyReviewerFailure`. */
  function Classify(s: string): (code: string)
    ensures code in {AuthErrorCode, NetworkErrorCode, ExecutionErrorCode}
  {
    if MatchesAny(s, AuthPatterns) then AuthErrorCode
    else if MatchesAny(s, NetworkPatterns) then NetworkErrorCode
    else ExecutionErrorCode
  }

  lemma AuthCodeShape()
    ensures IsReviewerErrorCode(AuthErrorCode)
  {
    assert AuthErrorCode[..9] == "REVIEWER_";
    assert AuthErrorCode[|AuthErrorCode| - 6..] == "_ERROR";
  }

  lemma NetworkCodeShape()
    ensures IsReviewerErrorCode(NetworkErrorCode)
  {
    assert NetworkErrorCode[..9] == "REVIEWER_";
    assert NetworkErrorCode[|NetworkErrorCode| - 6..] == "_ERROR";
  }

  lemma ExecutionCodeShape()
    ensures IsReviewerErrorCode(ExecutionErrorCode)
  {
    assert ExecutionErrorCode[..9] == "REVIEWER_";
    assert ExecutionErrorCode[|ExecutionErrorCode| - 6..] == "_ERROR";
  }

  /** Every failure class is a code the store counts as a reviewer failure. */
  lemma ClassifyIsReviewerError(s: string)
    ensures IsReviewerErrorCode(Classify(s))
  {
    AuthCodeShape();
    NetworkCodeShape();
    ExecutionCodeShape();
  }

  /** Authentication failures win over network failures, which win over the
      generic execution failure. */
  lemma ClassifyPriority(s: string)
    ensures Classify(s) == AuthErrorCode <==> MatchesAny(s, AuthPatterns)
    ensures Classify(s) == NetworkErrorCode <==> !MatchesAny(s, AuthPatterns) && MatchesAny(s, NetworkPatterns)
    ensures Classify(s) == ExecutionErrorCode <==> !MatchesAny(s, AuthPatterns) && !MatchesAny(s, NetworkPatterns)
  {
  }

  lemma MatchesAnyInfix(pre: string, p: string, post: string, patterns: seq<string>, i: int)
    requires 0 <= i < |patterns| && UpperAll(p) == UpperAll(patterns[i])
    ensures MatchesAny(pre + p + post, patterns)
  {
    var s := pre + p + post;
    UpperAllConcat(pre, p);
    UpperAllConcat(pre + p, post);
    ContainsInfix(UpperAll(pre), UpperAll(p), UpperAll(post));
    assert ContainsIgnoreCase(s, patterns[i]);
  }

  /** A message naming an authentication failure in lower case and a
      connection reset is still classified as an authentication failure. */
  lemma ClassifyAuthOverNetwork(pre: string, mid: string, post: string)
    ensures Classify(pre + "401 unauthorized" + mid + "ECONNRESET" + post) == AuthErrorCode
  {
    var s := pre + "401 unauthorized" + mid + "ECONNRESET" + post;
    assert UpperAll("401 unauthorized") == UpperAll(AuthPatterns[0]);
    assert s == pre + "401 unauthorized" + (mid + "ECONNRESET" + post);
    MatchesAnyInfix(pre, "401 unauthorized", mid + "ECONNRESET" + post, AuthPatterns, 0);
  }

  /** `reviewerModelById[id] ?? (id === "codex" ? "gpt-5-codex" : "claude-sonnet")`. */
  function ModelFor(reviewerId: string, hint: Option<string>): string {
    if hint.Some? then hint.value else if reviewerId == "codex" then "gpt-5-codex" else "claude-sonnet"
  }

  /** The properties of every review payload, in the order they are set. */
  const ReviewKeys: seq<string> :=
    ["schema_version", "task_id", "model", "verdict", "blocking", "non_blocking",
     "summary", "confidence", "next_action", "generated_at", "raw_output_ref"]

  lemma ReviewKeysDistinct()
    ensures Distinct(ReviewKeys)
  {
  }

  /** A review payload (`schema_version` is always 1). */
  function ReviewObject(taskId: string, model: string, verdict: string, blocking: Value, nonBlocking: Value,
                        summary: string, confidence: Value, nextAction: Value, generatedAt: Value,
                        rawOutputRef: string): Value {
    Obj([("schema_version", Num(1)),
         ("task_id", Str(taskId)),
         ("model", Str(model)),
         ("verdict", Str(verdict)),
         ("blocking", blocking),
         ("non_blocking", nonBlocking),
         ("summary", Str(summary)),
         ("confidence", confidence),
         ("next_action", nextAction),
         ("generated_at", generatedAt),
         ("raw_output_ref", Str(rawOutputRef))])
  }

  /** In a review payload each property is the field built for it. */
  lemma ReviewGets(r: Value)
    requires r.Obj? && Keys(r.fields) == ReviewKeys
    ensures DistinctKeys(r.fields)
    ensures Get(r, "task_id") == r.fields[1].1 && Get(r, "model") == r.fields[2].1
    ensures Get(r, "verdict") == r.fields[3].1
    ensures Get(r, "blocking") == r.fields[4].1 && Get(r, "non_blocking") == r.fields[5].1
    ensures Get(r, "summary") == r.fields[6].1 && Get(r, "confidence") == r.fields[7].1
    ensures Get(r, "next_action") == r.fields[8].1 && Get(r, "generated_at") == r.fields[9].1
    ensures Get(r, "raw_output_ref") == r.fields[10].1
  {
    ReviewKeysDistinct();
    KeysDistinct(r.fields, ReviewKeys);
    forall j | 0 <= j < |r.fields| ensures Get(r, ReviewKeys[j]) == r.fields[j].1 {
      LookupAt(r.fields, j);
    }
    assert ReviewKeys[1] == "task_id" && ReviewKeys[2] == "model" && ReviewKeys[3] == "verdict";
    assert ReviewKeys[4] == "blocking" && ReviewKeys[5] == "non_blocking" && ReviewKeys[6] == "summary";
    assert ReviewKeys[7] == "confidence" && ReviewKeys[8] == "next_action";
    assert ReviewKeys[9] == "generated_at" && ReviewKeys[10] == "raw_output_ref";
  }

  /** Reading a property of a review payload gives the value it was built with. */
  lemma ReviewObjectGets(taskId: string, model: string, verdict: string, blocking: Value, nonBlocking: Value,
                         summary: string, confidence: Value, nextAction: Value, generatedAt: Value,
                         rawOutputRef: string)
    ensures var r := ReviewObject(taskId, model, verdict, blocking, nonBlocking, summary, confidence, nextAction,
                                  generatedAt, rawOutputRef);
      && DistinctKeys(r.fields)
      && Get(r, "task_id") == Str(taskId) && Get(r, "model") == Str(model) && Get(r, "verdict") == Str(verdict)
      && Get(r, "blocking") == blocking && Get(r, "non_blocking") == nonBlocking
      && Get(r, "summary") == Str(summary) && Get(r, "confidence") == confidence
      && Get(r, "next_action") == nextAction && Get(r, "generated_at") == generatedAt
      && Get(r, "raw_output_ref") == Str(rawOutputRef)
  {
    var r := ReviewObject(taskId, model, verdict, blocking, nonBlocking, summary, confidence, nextAction,
                          generatedAt, rawOutputRef);
    assert Keys(r.fields) == ReviewKeys;
    ReviewGets(r);
  }

  /** A review payload built from JSON values is a JSON value. */
  lemma ReviewObjectWellFormed(taskId: string, model: string, verdict: string, blocking: Value, nonBlocking: Value,
                               summary: string, confidence: Value, nextAction: Value, generatedAt: Value,
                               rawOutputRef: string)
    requires WellFormed(blocking) && WellFormed(nonBlocking) && WellFormed(confidence)
    requires WellFormed(nextAction) && WellFormed(generatedAt)
    ensures WellFormed(ReviewObject(taskId, model, verdict, blocking, nonBlocking, summary, confidence, nextAction,
                                    generatedAt, rawOutputRef))
  {
    var r := ReviewObject(taskId, model, verdict, blocking, nonBlocking, summary, confidence, nextAction,
                          generatedAt, rawOutputRef);
    assert Keys(r.fields) == ReviewKeys;
    ReviewKeysDistinct();
    KeysDistinct(r.fields, ReviewKeys);
    forall i | 0 <= i < |r.fields| ensures WellFormed(r.fields[i].1) {
    }
  }

  /** Whether `normalizeReviewPayload` reads the clock. */
  predicate NeedsClock(payload: Value) {
    !Get(payload, "generated_at").Str?
  }

  const NextActions: seq<Value> := [Str("proceed"), Str("rework"), Str("manual_review_required")]
  const Confidences: seq<Value> := [Str("high"), Str("medium"), Str("low")]

  /** `payload.verdict === "FAIL" ? "FAIL" : "PASS"`. */
  function VerdictOf(payload: Value): (v: string)
    ensures v == "FAIL" || v == "PASS"
    ensures v == "FAIL" <==> Get(payload, "verdict") == Str("FAIL")
  {
    if Get(payload, "verdict") == Str("FAIL") then "FAIL" else "PASS"
  }

  /** The reviewer's confidence when it is a known one, `medium` otherwise. */
  function ConfidenceOf(payload: Value): (c: Value)
    ensures c in Confidences
    ensures Get(payload, "confidence") in Confidences ==> c == Get(payload, "confidence")
  {
    var c := Get(payload, "confidence");
    if c in Confidences then c else Str("medium")
  }

  /** The reviewer's next action when it is a known one, else `rework` after
      FAIL and `proceed` after PASS. */
  function NextActionOf(payload: Value, verdict: string): (a: Value)
    ensures a in NextActions
    ensures Get(payload, "next_action") in NextActions ==> a == Get(payload, "next_action")
    ensures Get(payload, "next_action") !in NextActions ==> (a == Str("rework") <==> verdict == "FAIL")
  {
    var a := Get(payload, "next_action");
    if a in NextActions then a else if verdict == "FAIL" then Str("rework") else Str("proceed")
  }

  /** The reviewer's `generated_at` when it is a string, else the clock's. */
  function GeneratedAtOf(payload: Value, now: string): (g: Value)
    ensures g.Str?
    ensures Get(payload, "generated_at").Str? ==> g == Get(payload, "generated_at")
  {
    var g := Get(payload, "generated_at");
    if g.Str? then g else Str(now)
  }

  /** `normalizeReviewPayload`: fills every field of a review with the given
      value when it is acceptable and with a default otherwise. `now` is used
      only when the payload has no string `generated_at`. */
  function NormalizeReviewPayload(reviewerId: string, taskId: string, payload: Value, rawOutputRef: string,
                                  hint: Option<string>, now: string): Value {
    var verdict := VerdictOf(payload);
    ReviewObject(
      taskId,
      TextOr(Get(payload, "model"), ModelFor(reviewerId, hint)),
      verdict,
      ToFindingArray(Get(payload, "blocking")),
      ToFindingArray(Get(payload, "non_blocking")),
      TextOr(Get(payload, "summary"), reviewerId + " review " + (if verdict == "FAIL" then "fail" else "pass")),
      ConfidenceOf(payload),
      NextActionOf(payload, verdict),
      GeneratedAtOf(payload, now),
      TextOr(Get(payload, "raw_output_ref"), rawOutputRef))
  }

  /** A normalised review names the envelope's task, has verdict FAIL exactly
      when the reviewer said FAIL and PASS otherwise, and a known next action:
      the reviewer's own when it is one, else `rework` for FAIL and `proceed`
      for PASS. */
  lemma NormalizeReviewPayloadMeaning(reviewerId: string, taskId: string, payload: Value, rawOutputRef: string,
                                      hint: Option<string>, now: string)
    ensures var r := NormalizeReviewPayload(reviewerId, taskId, payload, rawOutputRef, hint, now);
      && Get(r, "task_id") == Str(taskId)
      && (Get(r, "verdict") == Str("FAIL") <==> Get(payload, "verdict") == Str("FAIL"))
      && Get(r, "verdict") in [Str("FAIL"), Str("PASS")]
      && Get(r, "next_action") in NextActions
      && (Get(payload, "next_action") in NextActions ==> Get(r, "next_action") == Get(payload, "next_action"))
      && (Get(payload, "next_action") !in NextActions ==>
            (Get(r, "next_action") == Str("rework") <==> Get(payload, "verdict") == Str("FAIL")))
      && Get(r, "confidence") in Confidences
      && Get(r, "blocking").Arr?
  {
    var verdict := VerdictOf(payload);
    ReviewObjectGets(
      taskId,
      TextOr(Get(payload, "model"), ModelFor(reviewerId, hint)),
      verdict,
      ToFindingArray(Get(payload, "blocking")),
      ToFindingArray(Get(payload, "non_blocking")),
      TextOr(Get(payload, "summary"), reviewerId + " review " + (if verdict == "FAIL" then "fail" else "pass")),
      ConfidenceOf(payload),
      NextActionOf(payload, verdict),
      GeneratedAtOf(payload, now),
      TextOr(Get(payload, "raw_output_ref"), rawOutputRef));
  }

  /** A normalised review is a JSON value, so it survives the mailbox file. */
  lemma NormalizeReviewPayloadWellFormed(reviewerId: string, taskId: string, payload: Value, rawOutputRef: string,
                                         hint: Option<string>, now: string)
    ensures WellFormed(NormalizeReviewPayload(reviewerId, taskId, payload, rawOutputRef, hint, now))
  {
    var verdict := VerdictOf(payload);
    NormalizedWellFormed(Get(payload, "blocking"));
    NormalizedWellFormed(Get(payload, "non_blocking"));
    var confidence, nextAction, generatedAt := ConfidenceOf(payload), NextActionOf(payload, verdict), GeneratedAtOf(payload, now);
    assert WellFormed(confidence) && WellFormed(nextAction) && WellFormed(generatedAt);
    ReviewObjectWellFormed(
      taskId,
      TextOr(Get(payload, "model"), ModelFor(reviewerId, hint)),
      verdict,
      ToFindingArray(Get(payload, "blocking")),
      ToFindingArray(Get(payload, "non_blocking")),
      TextOr(Get(payload, "summary"), reviewerId + " review " + (if verdict == "FAIL" then "fail" else "pass")),
      confidence,
      nextAction,
      generatedAt,
      TextOr(Get(payload, "raw_output_ref"), rawOutputRef));
  }

  lemma NormalizedWellFormed(v: Value)
    ensures WellFormed(ToFindingArray(v))
  {
    var r := ToFindingArray(v);
    forall i | 0 <= i < |r.items| ensures WellFormed(r.items[i]) {
      NormalizeFindingWellFormed(v.items[i], i);
    }
  }

  /** The instruction of an assignment, `String(payload?.instruction ?? "")`. */
  function InstructionOf(assignmentPayload: Value): string {
    TextOr(Get(assignmentPayload, "instruction"), "")
  }

  /** The marker that makes the deterministic reviewer `reviewerId` fail. */
  function ForceFailMarker(reviewerId: string): string {
    "force-fail:" + reviewerId
  }

  const TestMissingFinding: Value :=
    Obj([("code", Str("TEST_MISSING")),
         ("title", Str("Critical Test Missing")),
         ("detail", Str("Required regression test is missing")),
         ("severity", Str("high"))])

  /** The deterministic reviewer's payload; `now` and `ms` are the two clock
      readings it takes, in that order. */
  function DeterministicReview(reviewerId: string, taskId: string, instruction: string, hint: Option<string>,
                               now: string, ms: nat): Value {
    var forceFail := Contains(instruction, ForceFailMarker(reviewerId));
    ReviewObject(
      taskId,
      ModelFor(reviewerId, hint),
      if forceFail then "FAIL" else "PASS",
      Arr(if forceFail then [TestMissingFinding] else []),
      Arr([]),
      if forceFail then reviewerId + " found blocking issue" else reviewerId + " review passed",
      Str("high"),
      Str(if forceFail then "rework" else "proceed"),
      Str(now),
      "artifact://" + taskId + "/" + reviewerId + "/" + NatToString(ms))
  }

  /** The deterministic reviewer fails, with exactly one blocking
      `TEST_MISSING` finding and `rework`, if and only if the instruction
      carries `force-fail:<reviewerId>`; otherwise it passes with no blocking
      finding and `proceed`. */
  lemma DeterministicReviewMeaning(reviewerId: string, taskId: string, instruction: string, hint: Option<string>,
                                   now: string, ms: nat)
    ensures var r := DeterministicReview(reviewerId, taskId, instruction, hint, now, ms);
      var forced := Contains(instruction, ForceFailMarker(reviewerId));
      && Get(r, "task_id") == Str(taskId)
      && (Get(r, "verdict") == Str("FAIL") <==> forced)
      && (Get(r, "verdict") == Str("PASS") <==> !forced)
      && (forced ==> Get(r, "blocking") == Arr([TestMissingFinding]) && Get(r, "next_action") == Str("rework"))
      && (!forced ==> Get(r, "blocking") == Arr([]) && Get(r, "next_action") == Str("proceed"))
  {
    var forceFail := Contains(instruction, ForceFailMarker(reviewerId));
    ReviewObjectGets(
      taskId,
      ModelFor(reviewerId, hint),
      if forceFail then "FAIL" else "PASS",
      Arr(if forceFail then [TestMissingFinding] else []),
      Arr([]),
      if forceFail then reviewerId + " found blocking issue" else reviewerId + " review passed",
      Str("high"),
      Str(if forceFail then "rework" else "proceed"),
      Str(now),
      "artifact://" + taskId + "/" + reviewerId + "/" + NatToString(ms));
  }

  /** The deterministic review is a JSON value. */
  lemma DeterministicReviewWellFormed(reviewerId: string, taskId: string, instruction: string, hint: Option<string>,
                                      now: string, ms: nat)
    ensures WellFormed(DeterministicReview(reviewerId, taskId, instruction, hint, now, ms))
  {
    var forceFail := Contains(instruction, ForceFailMarker(reviewerId));
    assert DistinctKeys(TestMissingFinding.fields);
    ReviewObjectWellFormed(
      taskId,
      ModelFor(reviewerId, hint),
      if forceFail then "FAIL" else "PASS",
      Arr(if forceFail then [TestMissingFinding] else []),
      Arr([]),
      if forceFail then reviewerId + " found blocking issue" else reviewerId + " review passed",
      Str("high"),
      Str(if forceFail then "rework" else "proceed"),
      Str(now),
      "artifact://" + taskId + "/" + reviewerId + "/" + NatToString(ms));
  }

  /** An instruction carrying a reviewer's marker anywhere makes that reviewer fail. */
  lemma ForceFailAnywhere(reviewerId: string, taskId: string, pre: string, post: string, hint: Option<string>,
                          now: string, ms: nat)
    ensures Get(DeterministicReview(reviewerId, taskId, pre + ForceFailMarker(reviewerId) + post, hint, now, ms),
                "verdict") == Str("FAIL")
  {
    DeterministicReviewMeaning(reviewerId, taskId, pre + ForceFailMarker(reviewerId) + post, hint, now, ms);
    ContainsInfix(pre, ForceFailMarker(reviewerId), post);
  }

  /** What a CLI reviewer run gives back: a parsed payload; a failure whose
      message is classified (the source's `ReviewerCliError`); or any other
      thrown error, shown by its `String(error)` text. */
  datatype CliOutcome =
    | CliPayload(payload: Value, rawOutputRef: string)
    | CliFailure(message: string, rawOutputRef: string)
    | CliCrash(errorText: string)

  /** The one blocking finding of a failed CLI run. */
  function CliFailureFinding(code: string, detail: string): Value {
    Obj([("code", Str(code)),
         ("title", Str("Reviewer CLI execution failed")),
         ("detail", Str(detail)),
         ("severity", Str("high"))])
  }

  /** The payload that reports a failed CLI run. */
  function CliFailureReview(reviewerId: string, taskId: string, code: string, detail: string, rawOutputRef: string,
                            hint: Option<string>, now: string): Value {
    ReviewObject(
      taskId,
      ModelFor(reviewerId, hint),
      "FAIL",
      Arr([CliFailureFinding(code, detail)]),
      Arr([]),
      reviewerId + " CLI execution failed",
      Str("medium"),
      Str("manual_review_required"),
      Str(now),
      rawOutputRef)
  }

  /** A CLI failure becomes a FAIL that needs a person, with one blocking
      finding carrying the failure code. */
  lemma CliFailureMeaning(reviewerId: string, taskId: string, code: string, detail: string, rawOutputRef: string,
                          hint: Option<string>, now: string)
    ensures var r := CliFailureReview(reviewerId, taskId, code, detail, rawOutputRef, hint, now);
      && Get(r, "task_id") == Str(taskId)
      && Get(r, "verdict") == Str("FAIL")
      && Get(r, "next_action") == Str("manual_review_required")
      && Get(r, "blocking") == Arr([CliFailureFinding(code, detail)])
      && FindingCode(CliFailureFinding(code, detail)) == code
  {
    var f := CliFailureFinding(code, detail);
    ReviewObjectGets(taskId, ModelFor(reviewerId, hint), "FAIL", Arr([f]), Arr([]),
                     reviewerId + " CLI execution failed", Str("medium"), Str("manual_review_required"),
                     Str(now), rawOutputRef);
    LookupFirst(f.fields, 0, "code");
  }

  /** The review the store caches for the payload of a classified CLI failure
      is flagged as an execution error, with the failure class as its only
      failure code. */
  lemma CliFailureRecord(reviewerId: string, taskId: string, message: string, rawOutputRef: string,
                         hint: Option<string>, now: string, msgId: string)
    ensures var r := CliFailureReview(reviewerId, taskId, Classify(message), "Error: " + message, rawOutputRef, hint, now);
      && ReviewFromPayload(r, msgId).hasExecutionError
      && ReviewFromPayload(r, msgId).failureCodes == [Classify(message)]
      && ReviewFromPayload(r, msgId).blockingCount == Int(1)
  {
    var f := CliFailureFinding(Classify(message), "Error: " + message);
    CliFailureMeaning(reviewerId, taskId, Classify(message), "Error: " + message, rawOutputRef, hint, now);
    ClassifyIsReviewerError(message);
    assert [f][1..] == [];
  }

  /** The payload reporting a CLI failure is a JSON value. */
  lemma CliFailureReviewWellFormed(reviewerId: string, taskId: string, code: string, detail: string,
                                   rawOutputRef: string, hint: Option<string>, now: string)
    ensures WellFormed(CliFailureReview(reviewerId, taskId, code, detail, rawOutputRef, hint, now))
  {
    var f := CliFailureFinding(code, detail);
    assert DistinctKeys(f.fields);
    ReviewObjectWellFormed(taskId, ModelFor(reviewerId, hint), "FAIL", Arr([f]), Arr([]),
                           reviewerId + " CLI execution failed", Str("medium"), Str("manual_review_required"),
                           Str(now), rawOutputRef);
  }

  /** The result of the aggregation rule. */
  datatype Aggregate = Aggregate(verdict: string, blockingCount: JsNum, disagree: bool, nextAction: string)

  predicate FailingRow(row: (string, ReviewRecord)) {
    row.1.verdict == Str("FAIL") || row.1.blockingCount.Positive()
  }

  predicate AnyFailing(rows: Reviews) {
    exists i :: 0 <= i < |rows| && FailingRow(rows[i])
  }

  predicate AnyExecutionError(rows: Reviews) {
    exists i :: 0 <= i < |rows| && rows[i].1.hasExecutionError
  }

  /** How `new Set(verdicts)` tells verdicts apart: primitives by value, an
      object or array verdict by identity, and each cached review holds its
      own parsed verdict object. */
  datatype VerdictKey = Primitive(v: Value) | ObjectOf(reviewerId: string)

  function VerdictKeyOf(row: (string, ReviewRecord)): VerdictKey {
    if row.1.verdict.Arr? || row.1.verdict.Obj? then ObjectOf(row.0) else Primitive(row.1.verdict)
  }

  function VerdictSet(rows: Reviews): set<VerdictKey> {
    set i | 0 <= i < |rows| :: VerdictKeyOf(rows[i])
  }

  /** `rows.reduce((sum, row) => sum + Number(row.blocking_count ?? 0), 0)`. */
  function SumBlocking(rows: Reviews): JsNum {
    if |rows| == 0 then Int(0)
    else SumBlocking(rows[..|rows| - 1]).Plus(rows[|rows| - 1].1.blockingCount)
  }

  /** The decision computed over the reviews of the required reviewers. */
  function Decide(rows: Reviews): Aggregate {
    var anyFail := AnyFailing(rows);
    var anyExec := AnyExecutionError(rows);
    var disagree := |VerdictSet(rows)| > 1;
    var verdict := if anyFail then "FAIL" else "PASS";
    var nextAction :=
      if anyExec then "manual_review_required"
      else if disagree then "manual_review_required"
      else if verdict == "PASS" then "proceed"
      else "rework";
    Aggregate(verdict, SumBlocking(rows), disagree, nextAction)
  }

  lemma SetSizeOne<T>(s: set<T>, x: T)
    requires x in s && forall y :: y in s ==> y == x
    ensures |s| == 1
  {
    assert s == {x};
  }

  lemma SetSizeTwo<T>(s: set<T>, x: T, y: T)
    requires x in s && y in s && x != y
    ensures |s| > 1
  {
    var t := s - {x};
    assert y in t;
    assert s == t + {x};
  }

  /** Disagreement means two rows whose verdicts a Set keeps apart. */
  lemma DisagreeMeaning(rows: Reviews)
    ensures |VerdictSet(rows)| > 1 <==>
      exists i, j :: 0 <= i < |rows| && 0 <= j < |rows| && VerdictKeyOf(rows[i]) != VerdictKeyOf(rows[j])
  {
    var s := VerdictSet(rows);
    if exists i, j :: 0 <= i < |rows| && 0 <= j < |rows| && VerdictKeyOf(rows[i]) != VerdictKeyOf(rows[j]) {
      var i, j :| 0 <= i < |rows| && 0 <= j < |rows| && VerdictKeyOf(rows[i]) != VerdictKeyOf(rows[j]);
      SetSizeTwo(s, VerdictKeyOf(rows[i]), VerdictKeyOf(rows[j]));
    } else if |rows| > 0 {
      SetSizeOne(s, VerdictKeyOf(rows[0]));
    } else {
      assert s == {};
    }
  }

  /** The fixed decision rule: FAIL exactly when some required review failed
      or has blocking findings; a person is needed exactly when some review
      hit an execution error or the verdicts disagree; otherwise PASS means
      `proceed` and FAIL means `rework`. */
  lemma DecisionRule(rows: Reviews)
    ensures var d := Decide(rows);
      && (d.verdict == "FAIL" <==> exists i :: 0 <= i < |rows| && (rows[i].1.verdict == Str("FAIL") || rows[i].1.blockingCount.Positive()))
      && (d.verdict == "PASS" <==> !AnyFailing(rows))
      && (d.nextAction == "manual_review_required" <==> AnyExecutionError(rows) || d.disagree)
      && (d.nextAction == "proceed" <==> !AnyExecutionError(rows) && !d.disagree && d.verdict == "PASS")
      && (d.nextAction == "rework" <==> !AnyExecutionError(rows) && !d.disagree && d.verdict == "FAIL")
      && d.blockingCount == SumBlocking(rows)
  {
  }

  /** Two required reviewers that both pass with nothing blocking and no
      execution error: PASS, no disagreement, `proceed`. */
  lemma DecisionAllPass(a: string, ra: ReviewRecord, b: string, rb: ReviewRecord)
    requires ra.verdict == Str("PASS") && rb.verdict == Str("PASS")
    requires ra.blockingCount == Int(0) && rb.blockingCount == Int(0)
    requires !ra.hasExecutionError && !rb.hasExecutionError
    ensures Decide([(a, ra), (b, rb)]) == Aggregate("PASS", Int(0), false, "proceed")
  {
    var rows := [(a, ra), (b, rb)];
    assert VerdictKeyOf(rows[0]) == Primitive(Str("PASS")) && VerdictKeyOf(rows[1]) == Primitive(Str("PASS"));
    SetSizeOne(VerdictSet(rows), Primitive(Str("PASS")));
    assert !AnyFailing(rows) && !AnyExecutionError(rows);
    assert rows[..1] == [(a, ra)];
    assert SumBlocking(rows[..1]) == Int(0) by {
      assert rows[..1][..0] == [];
    }
  }

  /** One passing and one failing required review: FAIL, the verdicts
      disagree, and a person has to look. */
  lemma DecisionSplit(a: string, ra: ReviewRecord, b: string, rb: ReviewRecord)
    requires ra.verdict == Str("PASS") && rb.verdict == Str("FAIL")
    ensures Decide([(a, ra), (b, rb)]).verdict == "FAIL"
    ensures Decide([(a, ra), (b, rb)]).disagree
    ensures Decide([(a, ra), (b, rb)]).nextAction == "manual_review_required"
  {
    var rows := [(a, ra), (b, rb)];
    assert FailingRow(rows[1]);
    SetSizeTwo(VerdictSet(rows), VerdictKeyOf(rows[0]), VerdictKeyOf(rows[1]));
  }
}
