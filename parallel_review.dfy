/** The parallel-review launcher script: it finds the JSON objects that the
    preflight check and the runtime print among other output, parses its own
    command line and builds the runtime's command line from it. `JSON.parse`
    is a parameter `parse` (`None` where it throws). */
module ParallelReview {
  import opened Wrappers
  import opened Text
  import opened JsonValue
  import RuntimeMain

  // ---------------------------------------------------------------------------
  // extractJsonObjects
  // ---------------------------------------------------------------------------

  /** The scanner's variables between two characters. */
  datatype Scan = Scan(start: int, depth: nat, inString: bool, escaped: bool)

  const Initial: Scan := Scan(-1, 0, false, false)

  /** One character at index `i`: the next state and, when a top-level object
      closes here, its span `[start, i + 1)`. */
  function Step(st: Scan, ch: char, i: nat): (Scan, Option<(nat, nat)>) {
    if st.inString then
      if st.escaped then (st.(escaped := false), None)
      else if ch == '\\' then (st.(escaped := true), None)
      else if ch == '"' then (st.(inString := false), None)
      else (st, None)
    else if ch == '"' then (st.(inString := true), None)
    else if ch == '{' then
      ((if st.depth == 0 then st.(start := i) else st).(depth := st.depth + 1), None)
    else if ch == '}' && st.depth > 0 then
      if st.depth - 1 == 0 && st.start >= 0 then (st.(depth := 0, start := -1), Some((st.start as nat, i + 1)))
      else (st.(depth := st.depth - 1), None)
    else (st, None)
  }

  function Emitted(e: Option<(nat, nat)>): seq<(nat, nat)> {
    if e.Some? then [e.value] else []
  }

  /** The spans closed while scanning `text` from index `i` in state `st`. */
  function SpansFrom(text: string, i: nat, st: Scan): seq<(nat, nat)>
    decreases |text| - i
  {
    if i >= |text| then []
    else
      var step := Step(st, text[i], i);
      Emitted(step.1) + SpansFrom(text, i + 1, step.0)
  }

  /** The top-level brace spans of `text`, in order. */
  function Spans(text: string): seq<(nat, nat)> {
    SpansFrom(text, 0, Initial)
  }

  /** `text.slice(a, b)` for a span inside the text. */
  function Snippet(text: string, span: (nat, nat)): string {
    if span.0 <= span.1 <= |text| then text[span.0..span.1] else ""
  }

  /** The slices of the text the spans mark. */
  function SpanTexts(text: string, spans: seq<(nat, nat)>): seq<string> {
    if |spans| == 0 then [] else [Snippet(text, spans[0])] + SpanTexts(text, spans[1..])
  }

  /** One slice per span, in the order of the spans. */
  lemma {:induction false} SpanTextsIndex(text: string, spans: seq<(nat, nat)>)
    ensures var r := SpanTexts(text, spans);
      |r| == |spans| && forall k :: 0 <= k < |spans| ==> r[k] == Snippet(text, spans[k])
    decreases |spans|
  {
    if |spans| > 0 {
      SpanTextsIndex(text, spans[1..]);
    }
  }

  /** The candidate texts: the balanced top-level `{...}` spans. */
  function CandidateTexts(text: string): seq<string> {
    SpanTexts(text, Spans(text))
  }

  /** The parsed candidates, in order, the unparsable ones skipped. */
  function ParseAll(texts: seq<string>, parse: string -> Option<Value>): seq<Value> {
    if |texts| == 0 then []
    else
      var rest := ParseAll(texts[1..], parse);
      match parse(texts[0])
      case Some(v) => [v] + rest
      case None => rest
  }

  /** At most one object per candidate: none when no candidate parses, and
      exactly the parse of each when all of them do. */
  lemma {:induction false} ParseAllCases(texts: seq<string>, parse: string -> Option<Value>)
    ensures var r := ParseAll(texts, parse);
      && |r| <= |texts|
      && ((forall k :: 0 <= k < |texts| ==> parse(texts[k]).None?) ==> r == [])
      && ((forall k :: 0 <= k < |texts| ==> parse(texts[k]).Some?) ==>
            |r| == |texts| && forall k :: 0 <= k < |texts| ==> r[k] == parse(texts[k]).value)
    decreases |texts|
  {
    if |texts| > 0 {
      ParseAllCases(texts[1..], parse);
      assert forall k :: 1 <= k < |texts| ==> texts[1..][k - 1] == texts[k];
    }
  }

  /** Every result of `ParseAll` is the parse of some candidate. */
  lemma {:induction false} ParseAllFrom(texts: seq<string>, parse: string -> Option<Value>, v: Value)
    requires v in ParseAll(texts, parse)
    ensures exists k :: 0 <= k < |texts| && parse(texts[k]) == Some(v)
    decreases |texts|
  {
    var rest := ParseAll(texts[1..], parse);
    if parse(texts[0]) == Some(v) {
    } else {
      assert v in rest;
      ParseAllFrom(texts[1..], parse, v);
      var k :| 0 <= k < |texts[1..]| && parse(texts[1..][k]) == Some(v);
      assert texts[k + 1] == texts[1..][k];
    }
  }

  /** The objects `extractJsonObjects` returns. */
  function Objects(text: string, parse: string -> Option<Value>): seq<Value> {
    ParseAll(CandidateTexts(text), parse)
  }

  /** What is still to be collected from index `i` in state `st`. */
  function Rest(text: string, i: nat, st: Scan, parse: string -> Option<Value>): seq<Value> {
    ParseAll(SpanTexts(text, SpansFrom(text, i, st)), parse)
  }

  /** The parse of the span closed by one character, when it parses. */
  function Added(text: string, closed: Option<(nat, nat)>, parse: string -> Option<Value>): seq<Value> {
    if closed.Some? && parse(Snippet(text, closed.value)).Some?
    then [parse(Snippet(text, closed.value)).value] else []
  }

  /** One character of the scan adds the parse of the span it closes, if any. */
  lemma RestStep(text: string, i: nat, st: Scan, parse: string -> Option<Value>)
    requires i < |text|
    ensures var step := Step(st, text[i], i);
      Rest(text, i, st, parse) == Added(text, step.1, parse) + Rest(text, i + 1, step.0, parse)
  {
    var step := Step(st, text[i], i);
    var spans := SpansFrom(text, i + 1, step.0);
    if step.1.Some? {
      var all := [step.1.value] + spans;
      assert all[1..] == spans;
      assert SpanTexts(text, all) == [Snippet(text, step.1.value)] + SpanTexts(text, spans);
      var texts := SpanTexts(text, all);
      assert texts[1..] == SpanTexts(text, spans);
    } else {
      assert Emitted(step.1) + spans == spans;
    }
  }

  /** The loop invariant of `extractJsonObjects` carried over one character. */
  lemma Advance(text: string, i: nat, st: Scan, parse: string -> Option<Value>, collected: seq<Value>)
    requires i < |text|
    requires collected + Rest(text, i, st, parse) == Objects(text, parse)
    ensures var step := Step(st, text[i], i);
      collected + Added(text, step.1, parse) + Rest(text, i + 1, step.0, parse) == Objects(text, parse)
  {
    var step := Step(st, text[i], i);
    RestStep(text, i, st, parse);
    AppendAssoc(collected, Added(text, step.1, parse), Rest(text, i + 1, step.0, parse));
  }

  /** `extractJsonObjects`: one pass over the text tracking the brace depth,
      whether the scan is inside a string literal and whether the previous
      character was a backslash there; each closed top-level object is
      parsed and kept when it parses. */
  method ExtractJsonObjects(text: string, parse: string -> Option<Value>) returns (candidates: seq<Value>)
    ensures candidates == Objects(text, parse)
  {
    candidates := [];
    var start, depth, inString, escaped := -1, 0, false, false;
    var i := 0;
    while i < |text|
      invariant 0 <= i <= |text|
      invariant ScanInv(text, Scan(start, depth, inString, escaped), i)
      invariant candidates + Rest(text, i, Scan(start, depth, inString, escaped), parse) == Objects(text, parse)
    {
      ghost var st := Scan(start, depth, inString, escaped);
      ghost var c0 := candidates;
      Advance(text, i, st, parse, c0);
      StepInv(text, st, i);
      var ch := text[i];
      if inString {
        if escaped {
          escaped := false;
        } else if ch == '\\' {
          escaped := true;
        } else if ch == '"' {
          inString := false;
        }
      } else if ch == '"' {
        inString := true;
      } else if ch == '{' {
        if depth == 0 {
          start := i;
        }
        depth := depth + 1;
      } else if ch == '}' {
        if depth > 0 {
          depth := depth - 1;
          if depth == 0 && start >= 0 {
            var candidate := text[start..i + 1];
            var parsed := parse(candidate);
            if parsed.Some? {
              candidates := candidates + [parsed.value];
            }
            start := -1;
          }
        }
      }
      assert candidates == c0 + Added(text, Step(st, ch, i).1, parse);
      i := i + 1;
    }
  }

  lemma AppendAssoc<T>(a: seq<T>, b: seq<T>, c: seq<T>)
    ensures a + b + c == a + (b + c)
  {
  }

  lemma Regroup<T>(p: seq<T>, a: seq<T>, b: seq<T>, q: seq<T>)
    ensures p + (a + b) + q == p + a + b + q
    ensures p + (a + b) + q == p + a + (b + q)
  {
  }

  lemma DropAppend<T>(a: seq<T>, b: seq<T>, k: nat)
    requires k <= |a|
    ensures (a + b)[k..] == a[k..] + b
  {
  }

  // ---------------------------------------------------------------------------
  // Properties of the scan
  // ---------------------------------------------------------------------------

  /** The scanner's own invariant: an object is open exactly when `start`
      marks its opening brace. */
  predicate ScanInv(text: string, st: Scan, i: nat) {
    && -1 <= st.start < i
    && (st.depth == 0 <==> st.start == -1)
    && (st.depth > 0 ==> st.start < |text| && text[st.start] == '{')
  }

  /** A span that starts at an opening brace and ends with a closing one. */
  predicate Shaped(text: string, span: (nat, nat)) {
    span.0 < span.1 <= |text| && text[span.0] == '{' && text[span.1 - 1] == '}'
  }

  /** Spans that follow one another without overlapping. */
  predicate InOrder(spans: seq<(nat, nat)>) {
    forall j, k :: 0 <= j < k < |spans| ==> spans[j].1 <= spans[k].0
  }

  /** The earliest index a span found from here can start at. */
  function Lower(st: Scan, i: nat): int {
    if st.depth > 0 then st.start else i
  }

  lemma StepInv(text: string, st: Scan, i: nat)
    requires i < |text| && ScanInv(text, st, i)
    ensures var step := Step(st, text[i], i);
      && ScanInv(text, step.0, i + 1)
      && Lower(step.0, i + 1) >= Lower(st, i)
      && (step.1.Some? ==> step.1.value.0 == Lower(st, i) && step.1.value.1 == i + 1
                           && step.0.depth == 0 && Shaped(text, step.1.value))
  {
  }

  /** Every span is a `{...}` slice of the text starting at `lo` or later. */
  predicate ShapedFrom(text: string, spans: seq<(nat, nat)>, lo: int) {
    forall k :: 0 <= k < |spans| ==> Shaped(text, spans[k]) && spans[k].0 >= lo
  }

  /** A shaped span followed by ordered spans that start after it is ordered. */
  lemma PrependShaped(text: string, head: (nat, nat), rest: seq<(nat, nat)>, lo: int)
    requires Shaped(text, head) && head.0 >= lo
    requires ShapedFrom(text, rest, head.1) && InOrder(rest)
    ensures ShapedFrom(text, [head] + rest, lo) && InOrder([head] + rest)
  {
    var spans := [head] + rest;
    assert forall k :: 1 <= k < |spans| ==> spans[k] == rest[k - 1];
  }

  /** Every span found is a `{...}` slice of the text, and the spans come in
      text order without overlapping. */
  lemma {:induction false} SpansFromShape(text: string, i: nat, st: Scan)
    requires i <= |text| && ScanInv(text, st, i)
    ensures ShapedFrom(text, SpansFrom(text, i, st), Lower(st, i)) && InOrder(SpansFrom(text, i, st))
    decreases |text| - i
  {
    if i < |text| {
      var step := Step(st, text[i], i);
      StepInv(text, st, i);
      SpansFromShape(text, i + 1, step.0);
      var rest := SpansFrom(text, i + 1, step.0);
      assert SpansFrom(text, i, st) == Emitted(step.1) + rest;
      if step.1.Some? {
        assert Lower(step.0, i + 1) == i + 1;
        PrependShaped(text, step.1.value, rest, Lower(st, i));
      } else {
        assert Emitted(step.1) + rest == rest;
        ShapedFromLower(text, rest, Lower(step.0, i + 1), Lower(st, i));
      }
    }
  }

  /** Spans that start at `lo` or later start at any lower bound too. */
  lemma ShapedFromLower(text: string, spans: seq<(nat, nat)>, lo: int, lo': int)
    requires ShapedFrom(text, spans, lo) && lo' <= lo
    ensures ShapedFrom(text, spans, lo')
  {
  }

  lemma SpansShape(text: string)
    ensures var spans := Spans(text);
      && (forall k :: 0 <= k < |spans| ==> Shaped(text, spans[k]))
      && InOrder(spans)
  {
    SpansFromShape(text, 0, Initial);
  }

  /** The scanner's variables after the first `i` characters. */
  function StateAt(text: string, i: nat): Scan
    requires i <= |text|
    decreases i
  {
    if i == 0 then Initial else Step(StateAt(text, i - 1), text[i - 1], i - 1).0
  }

  /** Index `a` holds a `{` read at depth 0 outside a string literal. */
  predicate OpensAt(text: string, a: nat) {
    a < |text| && text[a] == '{' && StateAt(text, a).depth == 0 && !StateAt(text, a).inString
  }

  /** A top-level object: it opens at depth 0, the depth stays positive
      inside it, and the depth is back at 0 right after its last character. */
  predicate TopLevel(text: string, span: (nat, nat)) {
    && span.0 < span.1 <= |text|
    && OpensAt(text, span.0)
    && StateAt(text, span.1).depth == 0
    && forall k :: span.0 < k < span.1 ==> StateAt(text, k).depth > 0
  }

  /** While an object is open, `start` is where it opened, and the depth has
      been positive ever since. */
  predicate OpenSince(text: string, i: nat)
    requires i <= |text|
  {
    var st := StateAt(text, i);
    st.depth > 0 ==>
      && 0 <= st.start < i
      && OpensAt(text, st.start)
      && forall k :: st.start < k <= i ==> StateAt(text, k).depth > 0
  }

  /** One character keeps `OpenSince`: an object opened by this character
      starts here, and an object open before and after it is the same one. */
  lemma OpenSinceStep(text: string, i: nat)
    requires 0 < i <= |text|
    requires ScanInv(text, StateAt(text, i - 1), i - 1) && OpenSince(text, i - 1)
    ensures OpenSince(text, i)
  {
    var p := StateAt(text, i - 1);
    var s := Step(p, text[i - 1], i - 1).0;
    assert s == StateAt(text, i);
    assert s.depth > 0 && p.depth == 0 ==> s.start == i - 1;
    assert s.depth > 0 && p.depth > 0 ==> s.start == p.start;
  }

  lemma {:induction false} StateAtInv(text: string, i: nat)
    requires i <= |text|
    ensures ScanInv(text, StateAt(text, i), i) && OpenSince(text, i)
    decreases i
  {
    if i > 0 {
      StateAtInv(text, i - 1);
      StepInv(text, StateAt(text, i - 1), i - 1);
      OpenSinceStep(text, i);
    }
  }

  /** Every span found from index `i` on is a top-level object. */
  lemma {:induction false} SpansFromTopLevel(text: string, i: nat)
    requires i <= |text|
    ensures forall sp :: sp in SpansFrom(text, i, StateAt(text, i)) ==> TopLevel(text, sp)
    decreases |text| - i
  {
    if i < |text| {
      var p := StateAt(text, i);
      var step := Step(p, text[i], i);
      assert step.0 == StateAt(text, i + 1);
      SpansFromTopLevel(text, i + 1);
      StateAtInv(text, i);
      assert SpansFrom(text, i, p) == Emitted(step.1) + SpansFrom(text, i + 1, step.0);
      if step.1.Some? {
        assert step.1.value == (p.start as nat, i + 1);
        assert TopLevel(text, step.1.value);
      }
    }
  }

  /** A span closed at index `j` is among the spans found from `i <= j`. */
  lemma {:induction false} EmittedIn(text: string, i: nat, j: nat)
    requires i <= j < |text|
    ensures var step := Step(StateAt(text, j), text[j], j);
      step.1.Some? ==> step.1.value in SpansFrom(text, i, StateAt(text, i))
    decreases j - i
  {
    var step := Step(StateAt(text, i), text[i], i);
    assert step.0 == StateAt(text, i + 1);
    assert SpansFrom(text, i, StateAt(text, i)) == Emitted(step.1) + SpansFrom(text, i + 1, step.0);
    if i < j {
      EmittedIn(text, i + 1, j);
    }
  }

  /** Inside an object opened at `a`, `start` keeps pointing at `a`. */
  lemma {:induction false} StartKept(text: string, a: nat, k: nat)
    requires OpensAt(text, a) && a < k <= |text|
    requires forall m :: a < m <= k ==> StateAt(text, m).depth > 0
    ensures StateAt(text, k).start == a
    decreases k
  {
    if k > a + 1 {
      StartKept(text, a, k - 1);
    }
  }

  /** Every top-level object is one of the spans found. */
  lemma TopLevelInSpans(text: string, sp: (nat, nat))
    requires TopLevel(text, sp)
    ensures sp in Spans(text)
  {
    var a, b := sp.0, sp.1;
    assert StateAt(text, a + 1).depth > 0;
    StartKept(text, a, b - 1);
    StateAtInv(text, b - 1);
    CloseStep(text, b - 1, StateAt(text, b - 1));
    EmittedIn(text, 0, b - 1);
  }

  /** Leaving an open object for depth 0 closes the span it started. */
  lemma CloseStep(text: string, j: nat, st: Scan)
    requires j < |text| && ScanInv(text, st, j) && st.depth > 0
    requires Step(st, text[j], j).0.depth == 0
    ensures Step(st, text[j], j).1 == Some((st.start as nat, j + 1))
  {
  }

  /** The spans found are exactly the top-level objects: a nested object is
      never a candidate of its own, and every outermost one is. */
  lemma SpansTopLevel(text: string)
    ensures forall sp :: sp in Spans(text) <==> TopLevel(text, sp)
  {
    SpansFromTopLevel(text, 0);
    forall sp | TopLevel(text, sp) ensures sp in Spans(text) {
      TopLevelInSpans(text, sp);
    }
  }

  /** A character that closes nothing passes the scan on. */
  lemma SkipStep(text: string, i: nat, st: Scan, st': Scan)
    requires i < |text| && Step(st, text[i], i) == (st', None)
    ensures SpansFrom(text, i, st) == SpansFrom(text, i + 1, st')
  {
    assert Emitted(None) + SpansFrom(text, i + 1, st') == SpansFrom(text, i + 1, st');
  }

  /** An object nested in another is not a candidate of its own: only the
      outer one is. */
  lemma NestedObjectOneSpan()
    ensures Spans("{a{b}c}") == [(0, 7)]
  {
    var t := "{a{b}c}";
    assert t[0] == '{' && t[1] == 'a' && t[2] == '{';
    SkipStep(t, 0, Initial, Scan(0, 1, false, false));
    SkipStep(t, 1, Scan(0, 1, false, false), Scan(0, 1, false, false));
    SkipStep(t, 2, Scan(0, 1, false, false), Scan(0, 2, false, false));
    NestedObjectInner(t);
  }

  lemma NestedObjectInner(t: string)
    requires t == "{a{b}c}"
    ensures SpansFrom(t, 3, Scan(0, 2, false, false)) == [(0, 7)]
  {
    assert |t| == 7 && t[3] == 'b' && t[4] == '}' && t[5] == 'c' && t[6] == '}';
    SkipStep(t, 3, Scan(0, 2, false, false), Scan(0, 2, false, false));
    SkipStep(t, 4, Scan(0, 2, false, false), Scan(0, 1, false, false));
    SkipStep(t, 5, Scan(0, 1, false, false), Scan(0, 1, false, false));
    assert SpansFrom(t, 6, Scan(0, 1, false, false)) == [(0, 7)] + SpansFrom(t, 7, Initial);
  }

  /** The same for an object held in a property of another. */
  lemma NestedValueOneSpan()
    ensures Spans("{\"a\":{}}") == [(0, 8)]
  {
    var u := "{\"a\":{}}";
    assert u[0] == '{' && u[1] == '"' && u[2] == 'a' && u[3] == '"';
    SkipStep(u, 0, Initial, Scan(0, 1, false, false));
    SkipStep(u, 1, Scan(0, 1, false, false), Scan(0, 1, true, false));
    SkipStep(u, 2, Scan(0, 1, true, false), Scan(0, 1, true, false));
    SkipStep(u, 3, Scan(0, 1, true, false), Scan(0, 1, false, false));
    NestedValueInner(u);
  }

  lemma NestedValueInner(u: string)
    requires u == "{\"a\":{}}"
    ensures SpansFrom(u, 4, Scan(0, 1, false, false)) == [(0, 8)]
  {
    assert |u| == 8 && u[4] == ':' && u[5] == '{' && u[6] == '}' && u[7] == '}';
    SkipStep(u, 4, Scan(0, 1, false, false), Scan(0, 1, false, false));
    SkipStep(u, 5, Scan(0, 1, false, false), Scan(0, 2, false, false));
    SkipStep(u, 6, Scan(0, 2, false, false), Scan(0, 1, false, false));
    assert SpansFrom(u, 7, Scan(0, 1, false, false)) == [(0, 8)] + SpansFrom(u, 8, Initial);
  }

  /** Inside a string literal, text without quotes or backslashes, braces
      included, leaves the scan where it was. */
  lemma {:induction false} QuotedTextIgnored(text: string, i: nat, j: nat, st: Scan)
    requires st.inString && !st.escaped
    requires i <= j <= |text|
    requires forall k :: i <= k < j ==> text[k] != '"' && text[k] != '\\'
    ensures SpansFrom(text, i, st) == SpansFrom(text, j, st)
    decreases j - i
  {
    if i < j {
      assert Step(st, text[i], i) == (st, None);
      assert Emitted(None) + SpansFrom(text, i + 1, st) == SpansFrom(text, i + 1, st);
      QuotedTextIgnored(text, i + 1, j, st);
    }
  }

  /** A backslash inside a string literal hides the next character, a quote
      or a brace alike. */
  lemma EscapeSkipsNext(text: string, i: nat, st: Scan)
    requires st.inString && !st.escaped
    requires i + 1 < |text| && text[i] == '\\'
    ensures SpansFrom(text, i, st) == SpansFrom(text, i + 2, st)
  {
    var st1 := st.(escaped := true);
    assert Step(st, text[i], i) == (st1, None);
    assert Step(st1, text[i + 1], i + 1) == (st, None);
    assert SpansFrom(text, i, st) == SpansFrom(text, i + 1, st1);
  }

  /** A closing brace outside any object is ignored. */
  lemma StrayCloseIgnored(text: string, i: nat, st: Scan)
    requires !st.inString && st.depth == 0
    requires i < |text| && text[i] == '}'
    ensures SpansFrom(text, i, st) == SpansFrom(text, i + 1, st)
  {
    assert Step(st, text[i], i) == (st, None);
    assert SpansFrom(text, i, st) == Emitted(None) + SpansFrom(text, i + 1, st);
  }

  /** Text without an opening brace, scanned outside any object, has no candidates. */
  lemma {:induction false} NoOpenNoSpans(text: string, i: nat, st: Scan)
    requires st.depth == 0
    requires forall k :: i <= k < |text| ==> text[k] != '{'
    ensures SpansFrom(text, i, st) == []
    decreases |text| - i
  {
    if i < |text| {
      var step := Step(st, text[i], i);
      assert step.1 == None && step.0.depth == 0;
      NoOpenNoSpans(text, i + 1, step.0);
    }
  }

  /** A brace inside a string value does not close the object around it. */
  lemma BraceInStringValue()
    ensures Spans("{\"a\":\"}\"}") == [(0, 9)]
  {
    var text := "{\"a\":\"}\"}";
    var s1 := Scan(0, 1, false, false);
    var s2 := Scan(0, 1, true, false);
    assert Step(Initial, text[0], 0) == (s1, None);
    assert Step(s1, text[1], 1) == (s2, None);
    assert Step(s2, text[2], 2) == (s2, None);
    assert Step(s2, text[3], 3) == (s1, None);
    assert Step(s1, text[4], 4) == (s1, None);
    assert Step(s1, text[5], 5) == (s2, None);
    assert Step(s2, text[6], 6) == (s2, None);
    assert Step(s2, text[7], 7) == (s1, None);
    assert Step(s1, text[8], 8) == (Initial, Some((0, 9)));
  }

  // ---------------------------------------------------------------------------
  // pickLastMatching / extractStructuredJson
  // ---------------------------------------------------------------------------

  /** The index of the last value the matcher accepts. */
  function LastMatch(values: seq<Value>, matcher: Value -> bool): (r: Option<nat>)
    ensures r.Some? ==> r.value < |values| && matcher(values[r.value])
    ensures r.Some? ==> forall j :: r.value < j < |values| ==> !matcher(values[j])
    ensures r.None? <==> forall j :: 0 <= j < |values| ==> !matcher(values[j])
    decreases |values|
  {
    if |values| == 0 then None
    else if matcher(values[|values| - 1]) then Some(|values| - 1)
    else
      var init := values[..|values| - 1];
      assert forall j :: 0 <= j < |init| ==> init[j] == values[j];
      LastMatch(init, matcher)
  }

  /** The value `pickLastMatching` returns, `None` for `null`. */
  function Picked(values: seq<Value>, matcher: Value -> bool): Option<Value> {
    match LastMatch(values, matcher)
    case None => None
    case Some(k) => Some(values[k])
  }

  /** `pickLastMatching`: a backward scan for the first accepted value. */
  method PickLastMatching(values: seq<Value>, matcher: Value -> bool) returns (r: Option<Value>)
    ensures r == Picked(values, matcher)
  {
    var i := |values| - 1;
    while i >= 0
      invariant -1 <= i < |values|
      invariant forall j :: i < j < |values| ==> !matcher(values[j])
    {
      if matcher(values[i]) {
        assert LastMatch(values, matcher) == Some(i);
        return Some(values[i]);
      }
      i := i - 1;
    }
    return None;
  }

  /** What `extractStructuredJson` returns: the last accepted object of the
      standard output when that is truthy, else the last accepted object of
      standard output and standard error joined by a newline. */
  function StructuredJson(stdout: string, stderr: string, parse: string -> Option<Value>, matcher: Value -> bool)
    : (r: Option<Value>)
    ensures r.Some? ==> matcher(r.value)
    ensures var hit := Picked(Objects(stdout, parse), matcher);
      hit.Some? && Truthy(hit.value) ==> r == hit
    ensures var hit := Picked(Objects(stdout, parse), matcher);
      !(hit.Some? && Truthy(hit.value)) ==> r == Picked(Objects(stdout + "\n" + stderr, parse), matcher)
  {
    var hit := Picked(Objects(stdout, parse), matcher);
    if hit.Some? && Truthy(hit.value) then hit
    else Picked(Objects(stdout + "\n" + stderr, parse), matcher)
  }

  /** `extractStructuredJson`. */
  method ExtractStructuredJson(stdout: string, stderr: string, parse: string -> Option<Value>, matcher: Value -> bool)
    returns (r: Option<Value>)
    ensures r == StructuredJson(stdout, stderr, parse, matcher)
  {
    var stdoutValues := ExtractJsonObjects(stdout, parse);
    var stdoutHit := PickLastMatching(stdoutValues, matcher);
    if stdoutHit.Some? && Truthy(stdoutHit.value) {
      return stdoutHit;
    }
    var mergedValues := ExtractJsonObjects(stdout + "\n" + stderr, parse);
    r := PickLastMatching(mergedValues, matcher);
  }

  /** A later object the matcher rejects does not hide an earlier accepted one. */
  lemma LaterRejectedIgnored(values: seq<Value>, k: nat, matcher: Value -> bool)
    requires k < |values| && matcher(values[k])
    requires forall j :: k < j < |values| ==> !matcher(values[j])
    ensures Picked(values, matcher) == Some(values[k])
  {
  }

  /** `isRecord`: a non-null, non-array object. */
  predicate IsRecord(v: Value) {
    v.Obj?
  }

  /** `Number.isInteger`: numbers here are integers. */
  predicate IsInteger(v: Value) {
    v.Num?
  }

  /** `isPreflightSummary`. */
  predicate IsPreflightSummary(v: Value) {
    && IsRecord(v) && IsRecord(Get(v, "codex")) && IsRecord(Get(v, "claude"))
    && Get(Get(v, "codex"), "ok").Bool? && Get(Get(v, "claude"), "ok").Bool?
  }

  /** `isRuntimeResult`. */
  predicate IsRuntimeResult(v: Value) {
    var counts := Get(v, "reviewer_failure_counts");
    var decision := Get(v, "final_decision");
    && IsRecord(v)
    && Get(v, "mode") == Str("mailbox_only_review")
    && Get(v, "task_id").Str?
    && IsRecord(counts)
    && IsInteger(Get(counts, "auth_error")) && IsInteger(Get(counts, "network_error"))
    && IsInteger(Get(counts, "execution_error")) && IsInteger(Get(counts, "total"))
    && Get(v, "operational_gate").Str?
    && (decision == Null
        || (IsRecord(decision) && Get(decision, "task_id").Str? && Get(decision, "verdict").Str?
            && Get(decision, "next_action").Str?))
  }

  /** An accepted object is a record, so a hit in standard output always
      wins over the joined output. */
  lemma RecordHitWins(stdout: string, stderr: string, parse: string -> Option<Value>, matcher: Value -> bool)
    requires forall v :: matcher(v) ==> IsRecord(v)
    requires Picked(Objects(stdout, parse), matcher).Some?
    ensures StructuredJson(stdout, stderr, parse, matcher) == Picked(Objects(stdout, parse), matcher)
  {
  }

  // ---------------------------------------------------------------------------
  // toInt
  // ---------------------------------------------------------------------------

  /** `toInt`: the number a string denotes when it is finite and positive;
      otherwise the error the script exits with. */
  function ToInt(value: string, name: string): (r: Result<int, string>)
    ensures r.Success? <==> StringToNumber(value).Positive()
    ensures r.Success? ==> r.value > 0 && StringToNumber(value) == Int(r.value)
    ensures r.Failure? ==> r.error == "Invalid " + name + ": " + value
  {
    var n := StringToNumber(value);
    if !n.Positive() then Failure("Invalid " + name + ": " + value) else Success(n.i)
  }

  /** A positive integer printed in decimal reads back as itself. */
  lemma ToIntPrinted(n: int, name: string)
    requires n > 0
    ensures ToInt(IntToString(n), name) == Success(n)
  {
    NumberOfPrintedInt(n);
  }

  // ---------------------------------------------------------------------------
  // parseArgs
  // ---------------------------------------------------------------------------

  /** The launcher's options. `None` stands for the source's `null`. */
  datatype Options = Options(
    repoRoot: string,
    taskId: string,
    instruction: string,
    reviewerMode: string,
    cliHomeMode: string,
    agentsConfigJson: string,
    agentProfilesJson: string,
    codexModel: string,
    claudeModel: string,
    maxPasses: Option<int>,
    cliTimeoutMs: Option<int>,
    reviewInputMaxChars: Option<int>,
    reviewInputExcerptChars: Option<int>,
    includeFullGitDiff: bool,
    skipPreflight: bool,
    allowPreflightFailure: bool,
    outputJson: string,
    maxBufferMb: int)

  /** What `parseArgs` reads from its process: the working directory, the
      clock, the `MAILBOX_REVIEW_MAX_BUFFER_MB` variable (`None` when unset)
      and `path.resolve`. */
  datatype Context = Context(cwd: string, now: int, maxBufferEnv: Option<string>, resolve: string -> string)

  /** The outcome of `parseArgs`: the options, the help text (exit 0) or a
      failure message (exit 1). */
  datatype Parse = Parsed(options: Options) | Help | Failed(message: string)

  /** The options before any argument is read. */
  function DefaultOptions(ctx: Context): (r: Result<Options, string>)
    ensures r.Success? <==> StringToNumber(EnvOr(ctx.maxBufferEnv, "64")).Positive()
    ensures r.Success? ==> r.value.maxBufferMb > 0 && r.value.repoRoot == ctx.cwd
                           && r.value.reviewerMode == "cli" && r.value.cliHomeMode == "host"
                           && r.value.agentsConfigJson == "" && r.value.agentProfilesJson == ""
  {
    match ToInt(EnvOr(ctx.maxBufferEnv, "64"), "MAILBOX_REVIEW_MAX_BUFFER_MB")
    case Failure(e) => Failure(e)
    case Success(mb) =>
      Success(Options(
        repoRoot := ctx.cwd,
        taskId := "task-parallel-review-" + IntToString(ctx.now),
        instruction := "normal review",
        reviewerMode := "cli",
        cliHomeMode := "host",
        agentsConfigJson := "",
        agentProfilesJson := "",
        codexModel := "",
        claudeModel := "",
        maxPasses := None,
        cliTimeoutMs := None,
        reviewInputMaxChars := None,
        reviewInputExcerptChars := None,
        includeFullGitDiff := false,
        skipPreflight := false,
        allowPreflightFailure := false,
        outputJson := "",
        maxBufferMb := mb))
  }

  /** `a ?? b` for an environment variable. */
  function EnvOr(v: Option<string>, default: string): string {
    if v.Some? then v.value else default
  }

  /** The options that take no value. */
  predicate IsSwitch(arg: string) {
    arg == "--include-full-git-diff" || arg == "--skip-preflight" || arg == "--allow-preflight-failure"
  }

  /** The options that take a value. */
  datatype Flag =
    | RepoRoot | TaskId | Instruction | ReviewerModeFlag | CliHomeModeFlag
    | AgentsConfigJson | AgentProfilesJson | CodexModel | ClaudeModel
    | MaxPasses | CliTimeoutMs | ReviewInputMaxChars | ReviewInputExcerptChars | MaxBufferMb
    | OutputJson
  {
    /** The options `toInt` reads. */
    predicate Numeric() {
      MaxPasses? || CliTimeoutMs? || ReviewInputMaxChars? || ReviewInputExcerptChars? || MaxBufferMb?
    }
  }

  /** The option as written on the command line. */
  function FlagName(f: Flag): string {
    match f
    case RepoRoot => "--repo-root"
    case TaskId => "--task-id"
    case Instruction => "--instruction"
    case ReviewerModeFlag => "--reviewer-mode"
    case CliHomeModeFlag => "--cli-home-mode"
    case AgentsConfigJson => "--agents-config-json"
    case AgentProfilesJson => "--agent-profiles-json"
    case CodexModel => "--codex-model"
    case ClaudeModel => "--claude-model"
    case MaxPasses => "--max-passes"
    case CliTimeoutMs => "--cli-timeout-ms"
    case ReviewInputMaxChars => "--review-input-max-chars"
    case ReviewInputExcerptChars => "--review-input-excerpt-chars"
    case MaxBufferMb => "--max-buffer-mb"
    case OutputJson => "--output-json"
  }

  /** The option a command-line word names, if any: the branches of the
      `if`/`else if` chain of `parseArgs`. */
  function FlagOf(arg: string): (r: Option<Flag>)
    ensures r.Some? ==> FlagName(r.value) == arg
  {
    if arg == "--repo-root" then Some(RepoRoot)
    else if arg == "--task-id" then Some(TaskId)
    else if arg == "--instruction" then Some(Instruction)
    else if arg == "--reviewer-mode" then Some(ReviewerModeFlag)
    else if arg == "--cli-home-mode" then Some(CliHomeModeFlag)
    else if arg == "--agents-config-json" then Some(AgentsConfigJson)
    else if arg == "--agent-profiles-json" then Some(AgentProfilesJson)
    else if arg == "--codex-model" then Some(CodexModel)
    else if arg == "--claude-model" then Some(ClaudeModel)
    else if arg == "--max-passes" then Some(MaxPasses)
    else if arg == "--cli-timeout-ms" then Some(CliTimeoutMs)
    else if arg == "--review-input-max-chars" then Some(ReviewInputMaxChars)
    else if arg == "--review-input-excerpt-chars" then Some(ReviewInputExcerptChars)
    else if arg == "--max-buffer-mb" then Some(MaxBufferMb)
    else if arg == "--output-json" then Some(OutputJson)
    else None
  }

  /** Every option is recognised by its own name. */
  lemma FlagOfName(f: Flag)
    ensures FlagOf(FlagName(f)) == Some(f)
  {
  }

  /** The name `toInt` reports for a numeric option: the option without its
      leading dashes. */
  function NumberName(f: Flag): string
    requires f.Numeric()
  {
    match f
    case MaxPasses => "max-passes"
    case CliTimeoutMs => "cli-timeout-ms"
    case ReviewInputMaxChars => "review-input-max-chars"
    case ReviewInputExcerptChars => "review-input-excerpt-chars"
    case MaxBufferMb => "max-buffer-mb"
  }

  /** The effect of one recognised option with its value: paths go through
      `path.resolve`, the numeric options through `toInt`. */
  function SetFlag(ctx: Context, o: Options, f: Flag, next: string): (r: Result<Options, string>)
    ensures f.Numeric() ==> (r.Success? <==> StringToNumber(next).Positive())
    ensures f.Numeric() && r.Failure? ==> r.error == "Invalid " + NumberName(f) + ": " + next
    ensures !f.Numeric() ==> r.Success?
  {
    if f.Numeric() then SetNumber(o, f, ToInt(next, NumberName(f))) else Success(SetText(ctx, o, f, next))
  }

  /** The effect of an option that stores its value as text. */
  function SetText(ctx: Context, o: Options, f: Flag, next: string): Options
    requires !f.Numeric()
  {
    match f
    case RepoRoot => o.(repoRoot := ctx.resolve(next))
    case TaskId => o.(taskId := next)
    case Instruction => o.(instruction := next)
    case ReviewerModeFlag => o.(reviewerMode := next)
    case CliHomeModeFlag => o.(cliHomeMode := next)
    case AgentsConfigJson => o.(agentsConfigJson := ctx.resolve(next))
    case AgentProfilesJson => o.(agentProfilesJson := ctx.resolve(next))
    case CodexModel => o.(codexModel := next)
    case ClaudeModel => o.(claudeModel := next)
    case OutputJson => o.(outputJson := ctx.resolve(next))
  }

  /** A numeric option's value when `toInt` accepted it. */
  function SetNumber(o: Options, f: Flag, n: Result<int, string>): (r: Result<Options, string>)
    requires f.Numeric()
    ensures r.Success? <==> n.Success?
    ensures r.Failure? ==> r.error == n.error
  {
    match n
    case Failure(e) => Failure(e)
    case Success(v) =>
      match f
      case MaxPasses => Success(o.(maxPasses := Some(v)))
      case CliTimeoutMs => Success(o.(cliTimeoutMs := Some(v)))
      case ReviewInputMaxChars => Success(o.(reviewInputMaxChars := Some(v)))
      case ReviewInputExcerptChars => Success(o.(reviewInputExcerptChars := Some(v)))
      case MaxBufferMb => Success(o.(maxBufferMb := v))
  }

  /** One option with its value, or the unknown-option failure. */
  function SetOption(ctx: Context, o: Options, arg: string, next: string): (r: Result<Options, string>)
    ensures FlagOf(arg).None? ==> r == Failure("Unknown option: " + arg)
    ensures FlagOf(arg).Some? ==> r == SetFlag(ctx, o, FlagOf(arg).value, next)
  {
    match FlagOf(arg)
    case None => Failure("Unknown option: " + arg)
    case Some(f) => SetFlag(ctx, o, f, next)
  }

  /** What one iteration of the argument loop does. */
  datatype Move = Stop(outcome: Parse) | Go(used: nat, next: Options)

  /** One iteration of the argument loop at the head of `args`. */
  function Consume(ctx: Context, args: seq<string>, o: Options): (m: Move)
    requires |args| > 0
    ensures m.Stop? ==> !m.outcome.Parsed?
    ensures m.Go? ==> 1 <= m.used <= 2 && m.used <= |args|
    ensures m.Go? && m.used == 1 <==> IsSwitch(args[0])
    ensures m.Go? && m.used == 2 ==> Plain(args[1]) && SetOption(ctx, o, args[0], args[1]) == Success(m.next)
  {
    var arg := args[0];
    if arg == "--help" then Stop(Help)
    else if arg == "--include-full-git-diff" then Go(1, o.(includeFullGitDiff := true))
    else if arg == "--skip-preflight" then Go(1, o.(skipPreflight := true))
    else if arg == "--allow-preflight-failure" then Go(1, o.(allowPreflightFailure := true))
    else if !StartsWith(arg, "--") then Stop(Failed("Unknown argument: " + arg))
    else if |args| < 2 || StartsWith(args[1], "--") then Stop(Failed("Missing value for " + arg))
    else
      match SetOption(ctx, o, arg, args[1])
      case Failure(e) => Stop(Failed(e))
      case Success(o1) => Go(2, o1)
  }

  /** The argument loop over the remaining arguments. */
  function ScanArgs(ctx: Context, args: seq<string>, o: Options): Parse
    decreases |args|
  {
    if |args| == 0 then Parsed(o)
    else
      match Consume(ctx, args, o)
      case Stop(outcome) => outcome
      case Go(n, o1) => ScanArgs(ctx, args[n..], o1)
  }

  /** The checks after the loop: the two modes and the exclusive
      configuration files. */
  function FinalCheck(o: Options): (r: Parse)
    ensures r.Parsed? <==> ValidOptions(o)
    ensures r.Parsed? ==> r.options == o
    ensures !KnownReviewerMode(o.reviewerMode) ==> r == Failed("Invalid --reviewer-mode: " + o.reviewerMode)
    ensures KnownReviewerMode(o.reviewerMode) && !KnownCliHomeMode(o.cliHomeMode) ==>
              r == Failed("Invalid --cli-home-mode: " + o.cliHomeMode)
    ensures ValidModes(o) && o.agentsConfigJson != "" && o.agentProfilesJson != "" ==>
              r == Failed(BothConfigsMessage)
  {
    if !KnownReviewerMode(o.reviewerMode) then Failed("Invalid --reviewer-mode: " + o.reviewerMode)
    else if !KnownCliHomeMode(o.cliHomeMode) then Failed("Invalid --cli-home-mode: " + o.cliHomeMode)
    else if o.agentsConfigJson != "" && o.agentProfilesJson != "" then Failed(BothConfigsMessage)
    else Parsed(o)
  }

  /** The reviewer modes the runner knows. */
  predicate KnownReviewerMode(m: string) {
    m == "cli" || m == "deterministic"
  }

  /** The CLI home modes the runner knows. */
  predicate KnownCliHomeMode(m: string) {
    m == "host" || m == "isolated"
  }

  const BothConfigsMessage := "Use either --agents-config-json or --agent-profiles-json, not both"

  /** Both modes are ones the runner knows. */
  predicate ValidModes(o: Options) {
    KnownReviewerMode(o.reviewerMode) && KnownCliHomeMode(o.cliHomeMode)
  }

  /** The options `parseArgs` lets through. */
  predicate ValidOptions(o: Options) {
    ValidModes(o) && !(o.agentsConfigJson != "" && o.agentProfilesJson != "")
  }

  /** What `parseArgs` returns for the arguments. */
  function ParseArgsOf(ctx: Context, argv: seq<string>): (r: Parse)
    ensures DefaultOptions(ctx).Failure? ==> r == Failed(DefaultOptions(ctx).error)
    ensures r.Parsed? ==> ValidOptions(r.options)
  {
    match DefaultOptions(ctx)
    case Failure(e) => Failed(e)
    case Success(d) => AfterScan(ScanArgs(ctx, argv, d))
  }

  /** The loop's outcome followed by the final checks. */
  function AfterScan(p: Parse): Parse {
    match p
    case Parsed(o) => FinalCheck(o)
    case other => other
  }

  /** `toBufferBytes`: the buffer size in bytes for a size in megabytes; the
      option is an integer, so the floor does nothing. */
  function ToBufferBytes(mb: int): (r: int)
    ensures r % 1048576 == 0 && r / 1048576 == mb
  {
    mb * 1024 * 1024
  }

  /** `parseArgs`: the defaults, then the loop over the arguments. */
  method ParseArgs(ctx: Context, argv: seq<string>) returns (r: Parse)
    ensures r == ParseArgsOf(ctx, argv)
  {
    var defaults := DefaultOptions(ctx);
    if defaults.Failure? {
      return Failed(defaults.error);
    }
    r := ScanLoop(ctx, argv, defaults.value);
  }

  /** The loop of `parseArgs` and the checks after it, updating the options
      in place. */
  method ScanLoop(ctx: Context, argv: seq<string>, defaults: Options) returns (r: Parse)
    ensures r == AfterScan(ScanArgs(ctx, argv, defaults))
  {
    var options := defaults;
    ghost var goal := ScanArgs(ctx, argv, options);
    var i := 0;
    while i < |argv|
      invariant 0 <= i <= |argv|
      invariant ScanArgs(ctx, argv[i..], options) == goal
    {
      var arg := argv[i];
      if arg == "--help" {
        return Help;
      }
      if arg == "--include-full-git-diff" {
        options := options.(includeFullGitDiff := true);
        assert argv[i..][1..] == argv[i + 1..];
        i := i + 1;
        continue;
      }
      if arg == "--skip-preflight" {
        options := options.(skipPreflight := true);
        assert argv[i..][1..] == argv[i + 1..];
        i := i + 1;
        continue;
      }
      if arg == "--allow-preflight-failure" {
        options := options.(allowPreflightFailure := true);
        assert argv[i..][1..] == argv[i + 1..];
        i := i + 1;
        continue;
      }
      if !StartsWith(arg, "--") {
        return Failed("Unknown argument: " + arg);
      }
      if i + 1 >= |argv| || StartsWith(argv[i + 1], "--") {
        return Failed("Missing value for " + arg);
      }
      var next := argv[i + 1];
      assert argv[i..][1] == next;
      var updated := SetOption(ctx, options, arg, next);
      if updated.Failure? {
        return Failed(updated.error);
      }
      options := updated.value;
      assert argv[i..][2..] == argv[i + 2..];
      i := i + 2;
    }
    r := FinalCheck(options);
  }

  // ---------------------------------------------------------------------------
  // buildRuntimeArgs
  // ---------------------------------------------------------------------------

  /** A word the argument parsers never take for an option name. */
  predicate Plain(s: string) {
    !StartsWith(s, "--")
  }

  /** One `args.push(flag, value)` that may or may not happen. */
  type Slot = Option<(Flag, string)>

  /** The words a slot pushes. */
  function Piece(slot: Slot): seq<string> {
    if slot.Some? then [FlagName(slot.value.0), slot.value.1] else []
  }

  /** The words the slots push, in order. */
  function Flatten(slots: seq<Slot>): seq<string>
    decreases |slots|
  {
    if |slots| == 0 then [] else Flatten(slots[..|slots| - 1]) + Piece(slots[|slots| - 1])
  }

  function TextSlot(flag: Flag, value: string): Slot {
    if value != "" then Some((flag, value)) else None
  }

  function NumSlot(flag: Flag, n: Option<int>): Slot {
    if n.Some? then Some((flag, IntToString(n.value))) else None
  }

  /** The agent-definition file when one is given. */
  function AgentsSlot(o: Options): Slot {
    TextSlot(AgentsConfigJson, o.agentsConfigJson)
  }

  /** The reviewer-profiles file, only when no agent-definition file is given. */
  function ProfilesSlot(o: Options): Slot {
    if o.agentsConfigJson == "" then TextSlot(AgentProfilesJson, o.agentProfilesJson) else None
  }

  /** The pushes of `buildRuntimeArgs`, one slot per flag with its value:
      the head it always builds, then one slot per optional push, in the
      order of the pushes. */
  function Slots(o: Options): seq<Slot> {
    if o.reviewerMode == "cli" then
      [Some((TaskId, o.taskId))] + [Some((Instruction, o.instruction))]
      + [Some((CliHomeModeFlag, o.cliHomeMode))] + [AgentsSlot(o)] + [ProfilesSlot(o)]
      + [TextSlot(CodexModel, o.codexModel)] + [TextSlot(ClaudeModel, o.claudeModel)]
      + [NumSlot(MaxPasses, o.maxPasses)] + [NumSlot(CliTimeoutMs, o.cliTimeoutMs)]
      + [NumSlot(ReviewInputMaxChars, o.reviewInputMaxChars)]
      + [NumSlot(ReviewInputExcerptChars, o.reviewInputExcerptChars)]
    else
      [Some((TaskId, o.taskId))] + [Some((Instruction, o.instruction))]
      + [AgentsSlot(o)] + [ProfilesSlot(o)] + [NumSlot(MaxPasses, o.maxPasses)]
  }

  /** The npm script and the `--` that ends npm's own options. */
  function Launch(o: Options): seq<string> {
    ["run", if o.reviewerMode == "cli" then "poc:runtime:cli" else "poc:runtime", "--"]
  }

  /** The trailing `--include-full-git-diff`, passed only in cli mode. */
  function Trailing(o: Options): seq<string> {
    if o.reviewerMode == "cli" && o.includeFullGitDiff then ["--include-full-git-diff"] else []
  }

  /** The words after `--`, which reach the runtime's command line. */
  function Forwarded(o: Options): seq<string> {
    Flatten(Slots(o)) + Trailing(o)
  }

  /** What `buildRuntimeArgs` returns. */
  function RuntimeArgs(o: Options): seq<string> {
    Launch(o) + Forwarded(o)
  }

  /** `buildRuntimeArgs`: the fixed head, then one `push` per option that is set. */
  method BuildRuntimeArgs(o: Options) returns (args: seq<string>)
    ensures args == RuntimeArgs(o)
  {
    if o.reviewerMode == "cli" {
      args := BuildCliArgs(o);
    } else {
      args := BuildDeterministicArgs(o);
    }
  }

  /** The cli branch of `buildRuntimeArgs`. */
  method BuildCliArgs(o: Options) returns (args: seq<string>)
    requires o.reviewerMode == "cli"
    ensures args == RuntimeArgs(o)
  {
    ghost var launch := Launch(o);
    ghost var done: seq<Slot> := [Some((TaskId, o.taskId))] + [Some((Instruction, o.instruction))]
                                 + [Some((CliHomeModeFlag, o.cliHomeMode))];
    args := ["run", "poc:runtime:cli", "--", "--task-id", o.taskId, "--instruction", o.instruction,
             "--cli-home-mode", o.cliHomeMode];
    FlattenThree(Some((TaskId, o.taskId)), Some((Instruction, o.instruction)), Some((CliHomeModeFlag, o.cliHomeMode)));
    assert args == launch + Flatten(done);
    args := PushConfig(args, o, launch, done);
    done := done + [AgentsSlot(o)] + [ProfilesSlot(o)];
    args := PushText(args, CodexModel, o.codexModel, launch, done);
    done := done + [TextSlot(CodexModel, o.codexModel)];
    args := PushText(args, ClaudeModel, o.claudeModel, launch, done);
    done := done + [TextSlot(ClaudeModel, o.claudeModel)];
    args := PushNumber(args, MaxPasses, o.maxPasses, launch, done);
    done := done + [NumSlot(MaxPasses, o.maxPasses)];
    args := PushNumber(args, CliTimeoutMs, o.cliTimeoutMs, launch, done);
    done := done + [NumSlot(CliTimeoutMs, o.cliTimeoutMs)];
    args := PushNumber(args, ReviewInputMaxChars, o.reviewInputMaxChars, launch, done);
    done := done + [NumSlot(ReviewInputMaxChars, o.reviewInputMaxChars)];
    args := PushNumber(args, ReviewInputExcerptChars, o.reviewInputExcerptChars, launch, done);
    done := done + [NumSlot(ReviewInputExcerptChars, o.reviewInputExcerptChars)];
    assert done == Slots(o);
    ghost var body := args;
    if o.includeFullGitDiff {
      args := args + ["--include-full-git-diff"];
    }
    assert args == body + Trailing(o);
    AppendAssoc(launch, Flatten(done), Trailing(o));
  }

  /** The deterministic branch of `buildRuntimeArgs`. */
  method BuildDeterministicArgs(o: Options) returns (args: seq<string>)
    requires o.reviewerMode != "cli"
    ensures args == RuntimeArgs(o)
  {
    ghost var launch := Launch(o);
    ghost var done: seq<Slot> := [Some((TaskId, o.taskId))] + [Some((Instruction, o.instruction))];
    args := ["run", "poc:runtime", "--", "--task-id", o.taskId, "--instruction", o.instruction];
    FlattenTwo(Some((TaskId, o.taskId)), Some((Instruction, o.instruction)));
    assert args == launch + Flatten(done);
    args := PushConfig(args, o, launch, done);
    done := done + [AgentsSlot(o)] + [ProfilesSlot(o)];
    args := PushNumber(args, MaxPasses, o.maxPasses, launch, done);
    done := done + [NumSlot(MaxPasses, o.maxPasses)];
    assert done == Slots(o);
    assert Trailing(o) == [];
    AppendAssoc(launch, Flatten(done), Trailing(o));
  }

  /** The agent configuration: the agent-definition file when one is given,
      else the reviewer-profiles file when one is given. */
  method PushConfig(args: seq<string>, o: Options, ghost launch: seq<string>, ghost done: seq<Slot>)
    returns (r: seq<string>)
    requires args == launch + Flatten(done)
    ensures r == launch + Flatten(done + [AgentsSlot(o)] + [ProfilesSlot(o)])
  {
    r := args;
    if o.agentsConfigJson != "" {
      r := r + ["--agents-config-json", o.agentsConfigJson];
    } else if o.agentProfilesJson != "" {
      r := r + ["--agent-profiles-json", o.agentProfilesJson];
    }
    Pushed(args, args + Piece(AgentsSlot(o)), launch, done, AgentsSlot(o));
    Pushed(args + Piece(AgentsSlot(o)), r, launch, done + [AgentsSlot(o)], ProfilesSlot(o));
  }

  /** `if (value) args.push(flag, value)`, as one more slot after the words
      `launch` and the slots `done`. */
  method PushText(args: seq<string>, flag: Flag, value: string,
                  ghost launch: seq<string>, ghost done: seq<Slot>) returns (r: seq<string>)
    requires args == launch + Flatten(done)
    ensures r == launch + Flatten(done + [TextSlot(flag, value)])
  {
    r := args;
    if value != "" {
      r := r + [FlagName(flag), value];
    }
    Pushed(args, r, launch, done, TextSlot(flag, value));
  }

  /** `if (n !== null) args.push(flag, String(n))`, as one more slot after
      the words `launch` and the slots `done`. */
  method PushNumber(args: seq<string>, flag: Flag, n: Option<int>,
                    ghost launch: seq<string>, ghost done: seq<Slot>) returns (r: seq<string>)
    requires args == launch + Flatten(done)
    ensures r == launch + Flatten(done + [NumSlot(flag, n)])
  {
    r := args;
    if n.Some? {
      r := r + [FlagName(flag), IntToString(n.value)];
    }
    Pushed(args, r, launch, done, NumSlot(flag, n));
  }

  lemma FlattenSnoc(slots: seq<Slot>, x: Slot)
    ensures Flatten(slots + [x]) == Flatten(slots) + Piece(x)
  {
    assert (slots + [x])[..|slots|] == slots;
  }

  lemma FlattenTwo(a: Slot, b: Slot)
    ensures Flatten([a] + [b]) == Piece(a) + Piece(b)
  {
    FlattenSnoc([a], b);
    FlattenSnoc([], a);
    assert [] + [a] == [a];
  }

  lemma FlattenThree(a: Slot, b: Slot, c: Slot)
    ensures Flatten([a] + [b] + [c]) == Piece(a) + Piece(b) + Piece(c)
  {
    FlattenSnoc([a] + [b], c);
    FlattenTwo(a, b);
  }

  /** One more push, as one more slot. */
  lemma Pushed(before: seq<string>, after: seq<string>, launch: seq<string>, slots: seq<Slot>, x: Slot)
    requires before == launch + Flatten(slots) && after == before + Piece(x)
    ensures after == launch + Flatten(slots + [x])
  {
    FlattenSnoc(slots, x);
    AppendAssoc(launch, Flatten(slots), Piece(x));
  }
}
