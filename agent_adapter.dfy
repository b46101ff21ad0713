/** The runtime's agent configuration: the orchestrator and aggregator ids and
    the reviewer profiles, with defaults filled in and inconsistent
    configurations refused, and the sender allow-lists derived from it. */
module AgentAdapter {
  import opened Wrappers
  import opened Text
  import opened JsonValue
  import opened StringOrder
  import EnvelopePolicy

  datatype Provider = Codex | Claude

  function ProviderName(p: Provider): string {
    match p
    case Codex => "codex"
    case Claude => "claude"
  }

  /** A normalised reviewer profile. Optional text fields are present only
      when non-blank, and then trimmed. */
  datatype ReviewerProfile = ReviewerProfile(
    id: string,
    provider: Provider,
    model: Option<string>,
    instruction: Option<string>,
    displayName: Option<string>,
    promptFile: Option<string>,
    commandTemplate: Option<seq<string>>,
    envProfile: Option<string>,
    env: Option<map<string, string>>)

  datatype RuntimeAgentConfig = RuntimeAgentConfig(
    orchestratorId: string,
    aggregatorId: string,
    reviewers: seq<ReviewerProfile>)

  /** The options object; absent entries are `Undefined`, and the two model
      names are strings when given. */
  datatype AdapterOptions = AdapterOptions(
    orchestratorId: Value,
    aggregatorId: Value,
    reviewers: Value,
    codexModel: Option<string>,
    claudeModel: Option<string>)

  /** `String(v ?? fallback).trim() || fallback`. */
  function IdOr(v: Value, fallback: string): (r: string)
    requires fallback != ""
    ensures r != ""
    ensures Trim(ToJsString(Coalesce(v, Str(fallback)))) != "" ==> r == Trim(ToJsString(Coalesce(v, Str(fallback))))
    ensures Trim(ToJsString(Coalesce(v, Str(fallback)))) == "" ==> r == fallback
  {
    var t := Trim(ToJsString(Coalesce(v, Str(fallback))));
    if t != "" then t else fallback
  }

  /** `s?.trim() ? s.trim() : undefined`. */
  function TrimmedModel(s: Option<string>): (r: Option<string>)
    ensures r.Some? ==> r.value != "" && Trim(r.value) == r.value
    ensures r.None? <==> s.None? || Trim(s.value) == ""
  {
    if s.Some? && Trim(s.value) != "" then
      TrimIdempotent(s.value);
      Some(Trim(s.value))
    else None
  }

  /** `v?.trim?.() || undefined`: only a string has a `trim` method. */
  function TrimmedText(v: Value): (r: Option<string>)
    ensures r.Some? ==> r.value != "" && Trim(r.value) == r.value
    ensures r.None? <==> !v.Str? || Trim(v.s) == ""
  {
    if v.Str? then TrimmedModel(Some(v.s)) else None
  }

  /** `a || b` on optional text. */
  function OrElse(a: Option<string>, b: Option<string>): Option<string> {
    if a.Some? then a else b
  }

  /** `.filter(Boolean)` on strings. */
  function NonEmpty(parts: seq<string>): (r: seq<string>)
    ensures forall x :: x in r <==> x in parts && x != ""
    ensures |r| <= |parts|
  {
    if |parts| == 0 then []
    else
      var rest := NonEmpty(parts[1..]);
      assert forall x :: x in parts <==> x == parts[0] || x in parts[1..];
      if parts[0] == "" then rest else [parts[0]] + rest
  }

  /** `filter(Boolean)` keeps the order: filtering a concatenation is
      filtering each part. */
  lemma {:induction false} NonEmptyAppend(a: seq<string>, b: seq<string>)
    ensures NonEmpty(a + b) == NonEmpty(a) + NonEmpty(b)
    decreases |a|
  {
    if |a| > 0 {
      assert (a + b)[1..] == a[1..] + b;
      NonEmptyAppend(a[1..], b);
    } else {
      assert a + b == b;
    }
  }

  /** One entry of `command_template` as `String(x ?? "").trim()`. */
  function TemplatePart(x: Value): string {
    Trim(ToJsString(Coalesce(x, Str(""))))
  }

  /** `.map((x) => String(x ?? "").trim())` over the array's entries. */
  function TemplateParts(items: seq<Value>): (r: seq<string>)
    ensures |r| == |items|
    ensures forall i :: 0 <= i < |items| ==> r[i] == TemplatePart(items[i])
  {
    seq(|items|, i requires 0 <= i < |items| => TemplatePart(items[i]))
  }

  /** What the filtered template holds: the entries' non-empty parts, each
      already trimmed, and some part exactly when one entry is non-blank. */
  lemma TemplatePartsKept(items: seq<Value>)
    ensures forall x :: x in NonEmpty(TemplateParts(items)) <==>
      x != "" && exists i :: 0 <= i < |items| && x == TemplatePart(items[i])
    ensures forall x :: x in NonEmpty(TemplateParts(items)) ==> Trim(x) == x
    ensures |NonEmpty(TemplateParts(items))| > 0 <==>
      exists i :: 0 <= i < |items| && TemplatePart(items[i]) != ""
  {
    var mapped := TemplateParts(items);
    var parts := NonEmpty(mapped);
    forall x | x in mapped ensures exists i :: 0 <= i < |items| && x == TemplatePart(items[i]) {
      var i :| 0 <= i < |mapped| && mapped[i] == x;
    }
    forall i | 0 <= i < |items| ensures TemplatePart(items[i]) in mapped {
      assert mapped[i] == TemplatePart(items[i]);
    }
    forall x | x in parts ensures Trim(x) == x {
      var i :| 0 <= i < |items| && x == TemplatePart(items[i]);
      TrimIdempotent(ToJsString(Coalesce(items[i], Str(""))));
    }
    if |parts| > 0 {
      assert parts[0] in parts;
    }
  }

  /** `command_template`: the array's entries as trimmed strings, empties
      dropped; absent when not an array or when nothing is left. */
  function CommandTemplate(v: Value): (r: Option<seq<string>>)
    ensures r.Some? <==> v.Arr? && exists i :: 0 <= i < |v.items| && TemplatePart(v.items[i]) != ""
    ensures r.Some? ==> forall x :: x in r.value <==>
      x != "" && exists i :: 0 <= i < |v.items| && x == TemplatePart(v.items[i])
    ensures r.Some? ==> forall x :: x in r.value ==> Trim(x) == x
  {
    if !v.Arr? then None
    else
      var parts := NonEmpty(TemplateParts(v.items));
      TemplatePartsKept(v.items);
      if |parts| > 0 then Some(parts) else None
  }

  /** The template keeps the entries in array order: entries appended to
      the array add their own non-empty parts after the template's. */
  lemma CommandTemplateAppend(xs: seq<Value>, ys: seq<Value>)
    requires CommandTemplate(Arr(xs)).Some?
    ensures CommandTemplate(Arr(xs + ys)).Some?
    ensures CommandTemplate(Arr(xs + ys)).value == CommandTemplate(Arr(xs)).value + NonEmpty(TemplateParts(ys))
  {
    var a := NonEmpty(TemplateParts(xs));
    var b := NonEmpty(TemplateParts(ys));
    assert CommandTemplate(Arr(xs)) == Some(a) by {
      assert |a| > 0;
    }
    TemplatePartsAppend(xs, ys);
    NonEmptyAppend(TemplateParts(xs), TemplateParts(ys));
    assert NonEmpty(TemplateParts(xs + ys)) == a + b;
  }

  lemma TemplatePartsAppend(xs: seq<Value>, ys: seq<Value>)
    ensures TemplateParts(xs + ys) == TemplateParts(xs) + TemplateParts(ys)
  {
    var zs := xs + ys;
    var px, py := TemplateParts(xs), TemplateParts(ys);
    var l := TemplateParts(zs);
    var r := px + py;
    assert |l| == |r|;
    forall i | 0 <= i < |l| ensures l[i] == r[i] {
      if i < |xs| {
        assert zs[i] == xs[i];
        assert r[i] == px[i];
      } else {
        assert zs[i] == ys[i - |xs|];
        assert r[i] == py[i - |xs|];
      }
    }
  }


  /** `Object.entries(v)` of an object or an array (whose keys are its indices). */
  function EnvEntries(v: Value): Fields {
    if v.Obj? then v.fields
    else if v.Arr? then seq(|v.items|, i requires 0 <= i < |v.items| => (NatToString(i), v.items[i]))
    else []
  }

  /** Each entry of `Object.entries` as a trimmed key and `String(value ?? "")`. */
  function EnvPairs(es: Fields): (ps: seq<(string, string)>)
    ensures |ps| == |es|
    ensures forall i :: 0 <= i < |es| ==> ps[i] == (Trim(es[i].0), ToJsString(Coalesce(es[i].1, Str(""))))
  {
    seq(|es|, i requires 0 <= i < |es| => (Trim(es[i].0), ToJsString(Coalesce(es[i].1, Str("")))))
  }

  /** `Object.fromEntries` of the pairs with a non-blank key; a later pair
      replaces an earlier one with the same key. */
  function PairsToMap(ps: seq<(string, string)>): (m: map<string, string>)
    ensures forall k :: k in m ==> k != "" && exists i :: 0 <= i < |ps| && ps[i].0 == k
  {
    if |ps| == 0 then map[]
    else
      var m := PairsToMap(ps[..|ps| - 1]);
      var (k, v) := ps[|ps| - 1];
      assert forall i :: 0 <= i < |ps| - 1 ==> ps[..|ps| - 1][i] == ps[i];
      if k == "" then m else m[k := v]
  }

  /** The value the last pair with a key gives it. */
  lemma {:induction false} PairsLastWins(ps: seq<(string, string)>, j: int)
    requires 0 <= j < |ps| && ps[j].0 != ""
    requires forall i :: j < i < |ps| ==> ps[i].0 != ps[j].0
    ensures ps[j].0 in PairsToMap(ps) && PairsToMap(ps)[ps[j].0] == ps[j].1
  {
    var n := |ps| - 1;
    if j < n {
      var prefix := ps[..n];
      assert prefix[j] == ps[j];
      PairsLastWins(prefix, j);
    }
  }

  /** The `env` map of a profile: keys are non-blank and trimmed. */
  function EnvFromEntries(es: Fields): (m: map<string, string>)
    ensures forall k :: k in m ==> k != "" && Trim(k) == k
  {
    var ps := EnvPairs(es);
    var m := PairsToMap(ps);
    assert forall k :: k in m ==> Trim(k) == k by {
      forall k | k in m ensures Trim(k) == k {
        var i :| 0 <= i < |ps| && ps[i].0 == k;
        TrimIdempotent(es[i].0);
      }
    }
    m
  }

  /** The value the last entry with a key gives it, once trimmed. */
  lemma EnvLastWins(es: Fields, j: int)
    requires 0 <= j < |es| && Trim(es[j].0) != ""
    requires forall i :: j < i < |es| ==> Trim(es[i].0) != Trim(es[j].0)
    ensures Trim(es[j].0) in EnvFromEntries(es)
    ensures EnvFromEntries(es)[Trim(es[j].0)] == ToJsString(Coalesce(es[j].1, Str("")))
  {
    PairsLastWins(EnvPairs(es), j);
  }

  /** `item?.env && typeof item.env === "object" ? ... : undefined`. */
  function EnvOf(v: Value): Option<map<string, string>> {
    if v.Obj? || v.Arr? then Some(EnvFromEntries(EnvEntries(v))) else None
  }

  /** The id of a reviewer entry: its `id` field (the empty string when it
      is absent or null) as a string, trimmed. */
  function ItemId(item: Value): string {
    Trim(ToJsString(Coalesce(Get(item, "id"), Str(""))))
  }

  /** The provider of a reviewer entry, if it is one of the two known. */
  function ItemProvider(item: Value): Option<Provider> {
    var p := Get(item, "provider");
    if p == Str("claude") then Some(Claude) else if p == Str("codex") then Some(Codex) else None
  }

  predicate ItemValid(item: Value) {
    ItemId(item) != "" && ItemProvider(item).Some?
  }

  function ItemError(item: Value, index: nat): string {
    if ItemId(item) == "" then "Invalid reviewer profile at index=" + NatToString(index) + ": missing id"
    else "Invalid reviewer profile " + ItemId(item) + ": provider must be codex or claude"
  }

  /** The profile of an entry that passed the id and provider checks, from
      the entry's `model`, `instruction`, `display_name`, `prompt_file`,
      `command_template`, `env_profile` and `env` properties. */
  function ProfileFrom(id: string, provider: Provider, codexModel: Option<string>, claudeModel: Option<string>,
                       model: Value, instruction: Value, displayName: Value, promptFile: Value,
                       commandTemplate: Value, envProfile: Value, env: Value): (p: ReviewerProfile)
    ensures p.id == id && p.provider == provider
  {
    ReviewerProfile(
      id,
      provider,
      OrElse(TrimmedText(model),
             OrElse(if provider == Codex then codexModel else None, if provider == Claude then claudeModel else None)),
      TrimmedText(instruction),
      TrimmedText(displayName),
      TrimmedText(promptFile),
      CommandTemplate(commandTemplate),
      TrimmedText(envProfile),
      EnvOf(env))
  }

  /** One element of the `reviewersInput.map(...)`. */
  function NormalizeReviewer(item: Value, index: nat, codexModel: Option<string>, claudeModel: Option<string>)
    : (r: Result<ReviewerProfile, string>)
    ensures r.Success? <==> ItemValid(item)
    ensures r.Failure? ==> r.error == ItemError(item, index)
    ensures r.Success? ==> r.value.id == ItemId(item) && Some(r.value.provider) == ItemProvider(item)
  {
    var id := ItemId(item);
    var provider := ItemProvider(item);
    if id == "" then Failure("Invalid reviewer profile at index=" + NatToString(index) + ": missing id")
    else if provider.None? then Failure("Invalid reviewer profile " + id + ": provider must be codex or claude")
    else
      Success(ProfileFrom(id, provider.value, codexModel, claudeModel,
                          Get(item, "model"), Get(item, "instruction"), Get(item, "display_name"),
                          Get(item, "prompt_file"), Get(item, "command_template"), Get(item, "env_profile"),
                          Get(item, "env")))
  }

  /** `items.map(f)` for a callback `f` that may throw: the first failure
      aborts the whole map. Positions count from `from`. */
  function MapOrFail<T>(items: seq<Value>, from: nat, f: (Value, nat) -> Result<T, string>): Result<seq<T>, string>
    requires from <= |items|
    decreases |items| - from
  {
    if from == |items| then Success([])
    else
      match f(items[from], from)
      case Failure(e) => Failure(e)
      case Success(p) =>
        match MapOrFail(items, from + 1, f)
        case Failure(e) => Failure(e)
        case Success(rest) => Success([p] + rest)
  }

  /** The map succeeds exactly when the callback succeeds on every entry and
      then holds the callback's results in order; otherwise it fails with the
      error of the first entry the callback rejects. */
  lemma {:induction false} MapOrFailMeaning<T>(items: seq<Value>, from: nat, f: (Value, nat) -> Result<T, string>)
    requires from <= |items|
    ensures var r := MapOrFail(items, from, f);
      && (r.Success? <==> forall i :: from <= i < |items| ==> f(items[i], i).Success?)
      && (r.Success? ==>
            && |r.value| == |items| - from
            && (forall i :: from <= i < |items| ==> r.value[i - from] == f(items[i], i).value))
      && (r.Failure? ==>
            exists i :: && from <= i < |items|
                        && (forall j :: from <= j < i ==> f(items[j], j).Success?)
                        && Failure(r.error) == f(items[i], i))
    decreases |items| - from
  {
    if from < |items| {
      MapOrFailMeaning(items, from + 1, f);
      var head := f(items[from], from);
      var r := MapOrFail(items, from, f);
      if head.Failure? {
        assert r == Failure(head.error);
      } else {
        var rest := MapOrFail(items, from + 1, f);
        if rest.Success? {
          assert r == Success([head.value] + rest.value);
          forall i | from <= i < |items| ensures r.value[i - from] == f(items[i], i).value {
            if i > from {
              assert r.value[i - from] == rest.value[i - (from + 1)];
            }
          }
        } else {
          assert r == Failure(rest.error);
        }
      }
    }
  }

  /** `MapOrFailMeaning` for a map over the whole list. */
  lemma MapOrFailWhole<T>(items: seq<Value>, f: (Value, nat) -> Result<T, string>)
    ensures var r := MapOrFail(items, 0, f);
      && (r.Success? <==> forall i :: 0 <= i < |items| ==> f(items[i], i).Success?)
      && (r.Success? ==> |r.value| == |items| && forall i :: 0 <= i < |items| ==> r.value[i] == f(items[i], i).value)
  {
    MapOrFailMeaning(items, 0, f);
    var r := MapOrFail(items, 0, f);
    if r.Success? {
      forall i | 0 <= i < |items| ensures r.value[i] == f(items[i], i).value {
        assert r.value[i - 0] == f(items[i], i).value;
      }
    }
  }

  /** The `reviewersInput.map(...)` of `buildRuntimeAgentConfig`. */
  function NormalizeReviewers(items: seq<Value>, codexModel: Option<string>, claudeModel: Option<string>)
    : Result<seq<ReviewerProfile>, string>
  {
    MapOrFail(items, 0, Normalizer(codexModel, claudeModel))
  }

  /** The callback of that map. */
  function Normalizer(codexModel: Option<string>, claudeModel: Option<string>)
    : (Value, nat) -> Result<ReviewerProfile, string>
  {
    (item: Value, i: nat) => NormalizeReviewer(item, i, codexModel, claudeModel)
  }

  lemma NormalizeReviewersValid(items: seq<Value>, codexModel: Option<string>, claudeModel: Option<string>)
    ensures NormalizeReviewers(items, codexModel, claudeModel).Success? <==>
      forall i :: 0 <= i < |items| ==> ItemValid(items[i])
  {
    var f := Normalizer(codexModel, claudeModel);
    MapOrFailMeaning(items, 0, f);
    assert NormalizeReviewers(items, codexModel, claudeModel) == MapOrFail(items, 0, f);
    forall i | 0 <= i < |items| ensures f(items[i], i).Success? <==> ItemValid(items[i]) {
      var _ := NormalizeReviewer(items[i], i, codexModel, claudeModel);
    }
  }

  /** A projection `g` of each result that the callback ties to a projection
      `h` of its entry is carried over, in order, by the whole map. */
  lemma MapOrFailProject<T, U>(items: seq<Value>, f: (Value, nat) -> Result<T, string>, g: T -> U, h: Value -> U)
    requires forall item: Value, i: nat :: f(item, i).Success? ==> g(f(item, i).value) == h(item)
    requires MapOrFail(items, 0, f).Success?
    ensures var r := MapOrFail(items, 0, f).value;
      |r| == |items| && forall i :: 0 <= i < |items| ==> g(r[i]) == h(items[i])
  {
    MapOrFailMeaning(items, 0, f);
    var r := MapOrFail(items, 0, f).value;
    forall i | 0 <= i < |items| ensures g(r[i]) == h(items[i]) {
      assert r[i - 0] == r[i];
    }
  }

  lemma NormalizerIds(codexModel: Option<string>, claudeModel: Option<string>)
    ensures var f := Normalizer(codexModel, claudeModel);
      forall item: Value, i: nat :: f(item, i).Success? ==> f(item, i).value.id == ItemId(item)
  {
    var f := Normalizer(codexModel, claudeModel);
    forall item: Value, i: nat | f(item, i).Success? ensures f(item, i).value.id == ItemId(item) {
      var nr := NormalizeReviewer(item, i, codexModel, claudeModel);
      assert f(item, i) == nr;
    }
  }

  lemma NormalizeReviewersIds(items: seq<Value>, codexModel: Option<string>, claudeModel: Option<string>)
    requires NormalizeReviewers(items, codexModel, claudeModel).Success?
    ensures var r := NormalizeReviewers(items, codexModel, claudeModel).value;
      |r| == |items| && forall i :: 0 <= i < |items| ==> r[i].id == ItemId(items[i])
  {
    var f := Normalizer(codexModel, claudeModel);
    NormalizerIds(codexModel, claudeModel);
    assert MapOrFail(items, 0, f).Success?;
    MapOrFailProject(items, f, (p: ReviewerProfile) => p.id, ItemId);
    var r := MapOrFail(items, 0, f).value;
    assert forall i :: 0 <= i < |items| ==> r[i].id == ItemId(items[i]);
    assert NormalizeReviewers(items, codexModel, claudeModel).value == MapOrFail(items, 0, f).value;
  }

  lemma NormalizeReviewersError(items: seq<Value>, codexModel: Option<string>, claudeModel: Option<string>)
    requires NormalizeReviewers(items, codexModel, claudeModel).Failure?
    ensures var e := NormalizeReviewers(items, codexModel, claudeModel).error;
      exists i :: && 0 <= i < |items| && !ItemValid(items[i])
                  && (forall j :: 0 <= j < i ==> ItemValid(items[j]))
                  && e == ItemError(items[i], i)
  {
    var f := Normalizer(codexModel, claudeModel);
    MapOrFailMeaning(items, 0, f);
    var r := MapOrFail(items, 0, f);
    assert NormalizeReviewers(items, codexModel, claudeModel) == r;
    var k :| && 0 <= k < |items|
             && (forall j :: 0 <= j < k ==> f(items[j], j).Success?)
             && Failure(r.error) == f(items[k], k);
    forall j | 0 <= j < k ensures ItemValid(items[j]) {
      assert f(items[j], j).Success?;
    }
    assert r.error == ItemError(items[k], k);
  }

  /** The reviewers are built exactly when every entry has an id and a known
      provider; there is then one profile per entry, carrying its id.
      Otherwise the error names the first invalid entry. */
  lemma NormalizeReviewersMeaning(items: seq<Value>, codexModel: Option<string>, claudeModel: Option<string>)
    ensures var r := NormalizeReviewers(items, codexModel, claudeModel);
      && (r.Success? <==> forall i :: 0 <= i < |items| ==> ItemValid(items[i]))
      && (r.Success? ==>
            && |r.value| == |items|
            && (forall i :: 0 <= i < |items| ==> r.value[i].id == ItemId(items[i])))
      && (r.Failure? ==>
            exists i :: && 0 <= i < |items| && !ItemValid(items[i])
                        && (forall j :: 0 <= j < i ==> ItemValid(items[j]))
                        && r.error == ItemError(items[i], i))
  {
    NormalizeReviewersValid(items, codexModel, claudeModel);
    if NormalizeReviewers(items, codexModel, claudeModel).Success? {
      NormalizeReviewersIds(items, codexModel, claudeModel);
    } else {
      NormalizeReviewersError(items, codexModel, claudeModel);
    }
  }

  /** The index of the first id that repeats an earlier one, scanning from `from`. */
  function FirstRepeat(ids: seq<string>, from: nat): (r: Option<nat>)
    requires from <= |ids|
    ensures r.Some? ==> from <= r.value < |ids| && ids[r.value] in ids[..r.value]
    decreases |ids| - from
  {
    if from == |ids| then None
    else if ids[from] in ids[..from] then Some(from)
    else FirstRepeat(ids, from + 1)
  }

  lemma {:induction false} FirstRepeatNone(ids: seq<string>, from: nat)
    requires from <= |ids| && Distinct(ids[..from])
    ensures FirstRepeat(ids, from).None? <==> Distinct(ids)
    decreases |ids| - from
  {
    if from == |ids| {
      assert ids[..from] == ids;
    } else if ids[from] in ids[..from] {
      var k :| 0 <= k < from && ids[k] == ids[from];
    } else {
      assert ids[..from + 1] == ids[..from] + [ids[from]];
      FirstRepeatNone(ids, from + 1);
    }
  }

  /** The error the duplicate and conflict check raises, if any. */
  function IdConflict(ids: seq<string>, orchestratorId: string, aggregatorId: string): Option<string> {
    match FirstRepeat(ids, 0)
    case Some(i) => Some("Duplicate reviewer id: " + ids[i])
    case None =>
      if orchestratorId in ids then Some("Reviewer id conflicts with orchestrator id: " + orchestratorId)
      else if aggregatorId in ids then Some("Reviewer id conflicts with aggregator id: " + aggregatorId)
      else None
  }

  /** The check passes exactly when ids do not repeat and neither the
      orchestrator nor the aggregator is one of them. */
  lemma IdConflictMeaning(ids: seq<string>, orchestratorId: string, aggregatorId: string)
    ensures IdConflict(ids, orchestratorId, aggregatorId).None? <==>
      Distinct(ids) && orchestratorId !in ids && aggregatorId !in ids
  {
    FirstRepeatNone(ids, 0);
  }

  /** The `seen` loop of `buildRuntimeAgentConfig`. */
  method CheckReviewerIds(ids: seq<string>, orchestratorId: string, aggregatorId: string) returns (r: Option<string>)
    ensures r == IdConflict(ids, orchestratorId, aggregatorId)
  {
    var seen: set<string> := {};
    var i := 0;
    while i < |ids|
      invariant 0 <= i <= |ids|
      invariant seen == set j | 0 <= j < i :: ids[j]
      invariant FirstRepeat(ids, 0) == FirstRepeat(ids, i)
    {
      assert ids[i] in seen <==> ids[i] in ids[..i] by {
        assert forall x :: x in ids[..i] <==> exists j :: 0 <= j < i && ids[j] == x;
      }
      if ids[i] in seen {
        return Some("Duplicate reviewer id: " + ids[i]);
      }
      seen := seen + {ids[i]};
      i := i + 1;
    }
    assert forall x :: x in seen <==> x in ids;
    if orchestratorId in seen {
      return Some("Reviewer id conflicts with orchestrator id: " + orchestratorId);
    }
    if aggregatorId in seen {
      return Some("Reviewer id conflicts with aggregator id: " + aggregatorId);
    }
    return None;
  }

  function Ids(reviewers: seq<ReviewerProfile>): (ids: seq<string>)
    ensures |ids| == |reviewers|
    ensures forall i :: 0 <= i < |reviewers| ==> ids[i] == reviewers[i].id
  {
    seq(|reviewers|, i requires 0 <= i < |reviewers| => reviewers[i].id)
  }

  /** A model option as it appears in a default reviewer entry. */
  function ModelValue(m: Option<string>): Value {
    if m.Some? then Str(m.value) else Undefined
  }

  /** A default reviewer entry `{ id: name, provider: name, model }`. */
  function DefaultItem(p: Provider, model: Option<string>): Value {
    var name := ProviderName(p);
    Obj([("id", Str(name)), ("provider", Str(name)), ("model", ModelValue(model))])
  }

  /** A provider's name is its own trim and is what `ItemProvider` recognises. */
  lemma ProviderNameFacts(p: Provider)
    ensures Trim(ProviderName(p)) == ProviderName(p) != ""
    ensures (Str(ProviderName(p)) == Str("claude")) == (p == Claude)
    ensures (Str(ProviderName(p)) == Str("codex")) == (p == Codex)
  {
    match p
    case Codex =>
      var s := "codex";
      TrimmedWord(s);
      assert |s| != |"claude"|;
    case Claude =>
      var s := "claude";
      TrimmedWord(s);
      assert |s| != |"codex"|;
  }

  lemma DefaultItemGets(p: Provider, model: Option<string>)
    ensures Get(DefaultItem(p, model), "id") == Str(ProviderName(p))
    ensures Get(DefaultItem(p, model), "provider") == Str(ProviderName(p))
  {
    var fs := DefaultItem(p, model).fields;
    var id, provider := "id", "provider";
    assert fs[0].0 == id && fs[1].0 == provider;
    assert id != provider;
    LookupFirst(fs, 0, id);
    LookupFirst(fs, 1, provider);
  }

  /** A default entry is valid, and its id is the provider's name. */
  lemma DefaultItemValid(p: Provider, model: Option<string>)
    ensures ItemValid(DefaultItem(p, model)) && ItemId(DefaultItem(p, model)) == ProviderName(p)
    ensures ItemProvider(DefaultItem(p, model)) == Some(p)
  {
    var name := ProviderName(p);
    DefaultItemGets(p, model);
    ProviderNameFacts(p);
    assert ToJsString(Coalesce(Str(name), Str(""))) == name;
  }

  /** The reviewers used when none are configured. */
  function DefaultReviewerItems(codexModel: Option<string>, claudeModel: Option<string>): seq<Value> {
    [DefaultItem(Codex, codexModel), DefaultItem(Claude, claudeModel)]
  }

  /** The ids of the reviewer entries. */
  function ItemIds(items: seq<Value>): (ids: seq<string>)
    ensures |ids| == |items|
    ensures forall i :: 0 <= i < |items| ==> ids[i] == ItemId(items[i])
  {
    seq(|items|, i requires 0 <= i < |items| => ItemId(items[i]))
  }

  /** The list the reviewers are normalised from: the configured non-empty
      array, else the defaults. */
  function ReviewerInput(o: AdapterOptions): seq<Value> {
    if o.reviewers.Arr? && |o.reviewers.items| > 0 then o.reviewers.items
    else DefaultReviewerItems(TrimmedModel(o.codexModel), TrimmedModel(o.claudeModel))
  }

  /** What `buildRuntimeAgentConfig` returns, or the message it throws. */
  function RuntimeAgentConfigOf(o: AdapterOptions): Result<RuntimeAgentConfig, string> {
    var orchestratorId := IdOr(o.orchestratorId, "orchestrator");
    var aggregatorId := IdOr(o.aggregatorId, "aggregator");
    var codexModel := TrimmedModel(o.codexModel);
    var claudeModel := TrimmedModel(o.claudeModel);
    match NormalizeReviewers(ReviewerInput(o), codexModel, claudeModel)
    case Failure(e) => Failure(e)
    case Success(reviewers) =>
      match IdConflict(Ids(reviewers), orchestratorId, aggregatorId)
      case Some(e) => Failure(e)
      case None => Success(RuntimeAgentConfig(orchestratorId, aggregatorId, reviewers))
  }

  /** `buildRuntimeAgentConfig`. */
  method BuildRuntimeAgentConfig(o: AdapterOptions) returns (r: Result<RuntimeAgentConfig, string>)
    ensures r == RuntimeAgentConfigOf(o)
  {
    var orchestratorId := IdOr(o.orchestratorId, "orchestrator");
    var aggregatorId := IdOr(o.aggregatorId, "aggregator");
    var codexModel := TrimmedModel(o.codexModel);
    var claudeModel := TrimmedModel(o.claudeModel);
    var reviewers := NormalizeReviewers(ReviewerInput(o), codexModel, claudeModel);
    if reviewers.Failure? {
      return Failure(reviewers.error);
    }
    var conflict := CheckReviewerIds(Ids(reviewers.value), orchestratorId, aggregatorId);
    if conflict.Some? {
      return Failure(conflict.value);
    }
    return Success(RuntimeAgentConfig(orchestratorId, aggregatorId, reviewers.value));
  }

  /** A configuration is built exactly when every reviewer entry has an id and
      a known provider, the ids are distinct, and none of them is the
      orchestrator's or the aggregator's id. The result then lists one
      reviewer per entry, in order, and non-blank orchestrator and aggregator
      ids. */
  lemma BuildMeaning(o: AdapterOptions)
    ensures var items := ReviewerInput(o);
      var ids := ItemIds(items);
      var orchestratorId := IdOr(o.orchestratorId, "orchestrator");
      var aggregatorId := IdOr(o.aggregatorId, "aggregator");
      && (RuntimeAgentConfigOf(o).Success? <==>
            (forall i :: 0 <= i < |items| ==> ItemValid(items[i]))
            && Distinct(ids) && orchestratorId !in ids && aggregatorId !in ids)
      && (RuntimeAgentConfigOf(o).Success? ==>
            var c := RuntimeAgentConfigOf(o).value;
            && Ids(c.reviewers) == ids
            && c.orchestratorId == orchestratorId && c.aggregatorId == aggregatorId
            && c.orchestratorId != "" && c.aggregatorId != "")
  {
    var items := ReviewerInput(o);
    var ids := ItemIds(items);
    var codexModel := TrimmedModel(o.codexModel);
    var claudeModel := TrimmedModel(o.claudeModel);
    NormalizeReviewersMeaning(items, codexModel, claudeModel);
    var r := NormalizeReviewers(items, codexModel, claudeModel);
    if r.Success? {
      assert Ids(r.value) == ids;
      IdConflictMeaning(ids, IdOr(o.orchestratorId, "orchestrator"), IdOr(o.aggregatorId, "aggregator"));
    }
  }

  /** Every reviewer of a built configuration has a non-blank trimmed id. */
  lemma BuiltReviewersHaveIds(o: AdapterOptions)
    requires RuntimeAgentConfigOf(o).Success?
    ensures forall p :: p in RuntimeAgentConfigOf(o).value.reviewers ==> p.id != "" && Trim(p.id) == p.id
  {
    var items := ReviewerInput(o);
    BuildMeaning(o);
    var c := RuntimeAgentConfigOf(o).value;
    forall p | p in c.reviewers ensures p.id != "" && Trim(p.id) == p.id {
      var i :| 0 <= i < |c.reviewers| && c.reviewers[i] == p;
      assert Ids(c.reviewers)[i] == ItemId(items[i]);
      TrimIdempotent(ToJsString(Coalesce(Get(items[i], "id"), Str(""))));
    }
  }

  /** Both default entries are valid, with the providers' names as ids. */
  lemma DefaultItemsFacts(codexModel: Option<string>, claudeModel: Option<string>)
    ensures var items := DefaultReviewerItems(codexModel, claudeModel);
      && |items| == 2 && ItemValid(items[0]) && ItemValid(items[1])
      && ItemId(items[0]) == ProviderName(Codex) && ItemId(items[1]) == ProviderName(Claude)
  {
    DefaultItemValid(Codex, codexModel);
    DefaultItemValid(Claude, claudeModel);
  }

  lemma TwoIds(ids: seq<string>, a: string, b: string)
    requires |ids| == 2 && ids[0] == a && ids[1] == b
    ensures ids == [a, b]
  {
  }

  lemma TwoItemsValid(items: seq<Value>)
    requires |items| == 2 && ItemValid(items[0]) && ItemValid(items[1])
    ensures forall i :: 0 <= i < |items| ==> ItemValid(items[i])
  {
    forall i | 0 <= i < |items| ensures ItemValid(items[i]) {
      if i != 0 {
        assert i == 1;
      }
    }
  }

  lemma ProviderNamesDistinct()
    ensures Distinct([ProviderName(Codex), ProviderName(Claude)])
  {
    var a, b := "codex", "claude";
    assert |a| != |b|;
    var s := [a, b];
    assert Distinct(s);
  }

  /** Without configured reviewers, and with orchestrator and aggregator ids
      other than theirs, the reviewers are exactly `codex` and `claude`, in
      that order. */
  lemma DefaultReviewers(o: AdapterOptions)
    requires !(o.reviewers.Arr? && |o.reviewers.items| > 0)
    requires IdOr(o.orchestratorId, "orchestrator") !in [ProviderName(Codex), ProviderName(Claude)]
    requires IdOr(o.aggregatorId, "aggregator") !in [ProviderName(Codex), ProviderName(Claude)]
    ensures RuntimeAgentConfigOf(o).Success?
    ensures Ids(RuntimeAgentConfigOf(o).value.reviewers) == [ProviderName(Codex), ProviderName(Claude)]
  {
    DefaultItemsFacts(TrimmedModel(o.codexModel), TrimmedModel(o.claudeModel));
    TwoIds(ItemIds(ReviewerInput(o)), ProviderName(Codex), ProviderName(Claude));
    TwoItemsValid(ReviewerInput(o));
    ProviderNamesDistinct();
    BuildMeaning(o);
  }

  /** An absent id falls back to the default name. */
  lemma IdOrAbsent(fallback: string)
    requires fallback != "" && Trim(fallback) == fallback
    ensures IdOr(Undefined, fallback) == fallback
  {
  }

  lemma DefaultNamesDistinct()
    ensures "orchestrator" !in [ProviderName(Codex), ProviderName(Claude)]
    ensures "aggregator" !in [ProviderName(Codex), ProviderName(Claude)]
  {
    var names := [ProviderName(Codex), ProviderName(Claude)];
    assert |names[0]| == 5 && |names[1]| == 6;
    var orchestrator, aggregator := "orchestrator", "aggregator";
    assert |orchestrator| == 12 && |aggregator| == 10;
  }

  /** Without orchestrator, aggregator or reviewer options: `orchestrator`,
      `aggregator`, and the reviewers `codex` and `claude`. */
  lemma DefaultConfig(o: AdapterOptions)
    requires o.orchestratorId == Undefined && o.aggregatorId == Undefined && o.reviewers == Undefined
    ensures RuntimeAgentConfigOf(o).Success?
    ensures RuntimeAgentConfigOf(o).value.orchestratorId == "orchestrator"
    ensures RuntimeAgentConfigOf(o).value.aggregatorId == "aggregator"
    ensures Ids(RuntimeAgentConfigOf(o).value.reviewers) == [ProviderName(Codex), ProviderName(Claude)]
  {
    var orchestrator, aggregator := "orchestrator", "aggregator";
    TrimmedWord(orchestrator);
    TrimmedWord(aggregator);
    IdOrAbsent(orchestrator);
    IdOrAbsent(aggregator);
    DefaultNamesDistinct();
    DefaultReviewers(o);
    BuildMeaning(o);
  }

  /** `buildAcl`. */
  function BuildAcl(c: RuntimeAgentConfig): (acl: EnvelopePolicy.Acl)
    ensures acl.taskAssignment == [c.orchestratorId] && acl.control == [c.orchestratorId]
    ensures acl.reviewResult == Ids(c.reviewers)
    ensures acl.aggregationResult == [c.aggregatorId]
    ensures acl.error == Dedup([c.orchestratorId, c.aggregatorId] + Ids(c.reviewers))
    ensures Distinct(acl.error)
    ensures forall s :: s in acl.error <==> s == c.orchestratorId || s == c.aggregatorId || s in Ids(c.reviewers)
  {
    var principals := [c.orchestratorId, c.aggregatorId] + Ids(c.reviewers);
    EnvelopePolicy.Acl([c.orchestratorId], Ids(c.reviewers), [c.aggregatorId], [c.orchestratorId], Dedup(principals))
  }
}
