/** JavaScript values as they travel through the mailbox: the JSON data model
    plus `undefined`. Objects are field lists in insertion order; property
    access finds the first field with the key, as it would on an object built
    by `JSON.parse` or an object literal (where keys never repeat).

    Numbers are integers here; the runtime's envelopes and payloads only carry
    integer counts, versions and flags. `Number(...)` coercions, which can
    produce NaN, are modelled by `JsNum`. */
module JsonValue {
  import opened Wrappers
  import opened Text
  import StringOrder

  datatype Value =
    | Undefined
    | Null
    | Bool(b: bool)
    | Num(n: int)
    | Str(s: string)
    | Arr(items: seq<Value>)
    | Obj(fields: seq<(string, Value)>)

  type Fields = seq<(string, Value)>

  /** `Object.keys(o)` for an object whose fields are `fs`. */
  function Keys(fs: Fields): (ks: seq<string>)
    ensures |ks| == |fs|
    ensures forall i :: 0 <= i < |fs| ==> ks[i] == fs[i].0
  {
    seq(|fs|, i requires 0 <= i < |fs| => fs[i].0)
  }

  predicate DistinctKeys(fs: Fields) {
    forall i, j :: 0 <= i < j < |fs| ==> fs[i].0 != fs[j].0
  }

  /** Position of the first field named `k`, or `|fs|` when there is none. */
  function IndexOf(fs: Fields, k: string): (j: nat)
    ensures j <= |fs|
    ensures j < |fs| ==> fs[j].0 == k
    ensures forall i :: 0 <= i < j ==> fs[i].0 != k
  {
    if |fs| == 0 then 0 else if fs[0].0 == k then 0 else 1 + IndexOf(fs[1..], k)
  }

  /** `o[k]`: the value of the first field named `k`, `undefined` if none. */
  function Lookup(fs: Fields, k: string): Value {
    var j := IndexOf(fs, k);
    if j < |fs| then fs[j].1 else Undefined
  }

  /** `v?.[k]`: a property of an object, `undefined` for anything else. */
  function Get(v: Value, k: string): Value {
    if v.Obj? then Lookup(v.fields, k) else Undefined
  }

  /** `a ?? b`. */
  function Coalesce(a: Value, b: Value): Value {
    if a == Undefined || a == Null then b else a
  }

  /** In an object with distinct keys, looking up a field's key finds that field. */
  lemma LookupAt(fs: Fields, j: int)
    requires DistinctKeys(fs) && 0 <= j < |fs|
    ensures Lookup(fs, fs[j].0) == fs[j].1
  {
    var i := IndexOf(fs, fs[j].0);
    assert i <= j;
  }

  /** A key that no field carries looks up to `undefined`. */
  lemma LookupAbsent(fs: Fields, k: string)
    requires forall j :: 0 <= j < |fs| ==> fs[j].0 != k
    ensures Lookup(fs, k) == Undefined
  {
  }

  /** The first field named `k` decides what `k` looks up to. */
  lemma LookupFirst(fs: Fields, j: int, k: string)
    requires 0 <= j < |fs| && fs[j].0 == k
    requires forall i :: 0 <= i < j ==> fs[i].0 != k
    ensures Lookup(fs, k) == fs[j].1
  {
    var i := IndexOf(fs, k);
    assert i <= j;
  }

  /** An object whose keys are a list of distinct names has distinct keys. */
  lemma KeysDistinct(fs: Fields, ks: seq<string>)
    requires Keys(fs) == ks && StringOrder.Distinct(ks)
    ensures DistinctKeys(fs)
  {
    assert forall i :: 0 <= i < |fs| ==> fs[i].0 == ks[i];
  }

  /** JSON values as JavaScript builds them: no object repeats a key. */
  predicate WellFormed(v: Value)
    decreases v
  {
    match v
    case Arr(items) => forall i :: 0 <= i < |items| ==> WellFormed(items[i])
    case Obj(fs) => DistinctKeys(fs) && forall i :: 0 <= i < |fs| ==> WellFormed(fs[i].1)
    case _ => true
  }

  // ---------------------------------------------------------------------------
  // The JSON round trip of a file: JSON.parse(JSON.stringify(v))
  // ---------------------------------------------------------------------------

  /** Ascending positions, from `from` on, of the fields that are not `undefined`. */
  function DefinedIndices(fs: Fields, from: nat): (idx: seq<nat>)
    requires from <= |fs|
    ensures forall i :: 0 <= i < |idx| ==> from <= idx[i] < |fs| && fs[idx[i]].1 != Undefined
    ensures forall j :: from <= j < |fs| && fs[j].1 != Undefined ==> j in idx
    ensures forall a, b :: 0 <= a < b < |idx| ==> idx[a] < idx[b]
    decreases |fs| - from
  {
    if from == |fs| then []
    else if fs[from].1 != Undefined then [from] + DefinedIndices(fs, from + 1)
    else DefinedIndices(fs, from + 1)
  }

  /** What reading a value back from a JSON file gives: object fields whose
      value is `undefined` disappear, `undefined` array slots become `null`.
      An `undefined` that is itself a field value stays `undefined`, since the
      containing object then has no such field. */
  function Normalize(v: Value): (r: Value)
    ensures (r == Undefined) == (v == Undefined)
    decreases v
  {
    match v
    case Arr(items) =>
      Arr(seq(|items|, i requires 0 <= i < |items| =>
        if items[i] == Undefined then Null else Normalize(items[i])))
    case Obj(fs) =>
      var idx := DefinedIndices(fs, 0);
      Obj(seq(|idx|, i requires 0 <= i < |idx| => (fs[idx[i]].0, Normalize(fs[idx[i]].1))))
    case _ => v
  }

  /** After the round trip, each property reads as the round trip of what it
      read before, and keys stay distinct. */
  lemma NormalizeLookup(fs: Fields)
    requires DistinctKeys(fs)
    ensures Normalize(Obj(fs)).Obj?
    ensures DistinctKeys(Normalize(Obj(fs)).fields)
    ensures forall k :: Lookup(Normalize(Obj(fs)).fields, k) == Normalize(Lookup(fs, k))
  {
    var idx := DefinedIndices(fs, 0);
    var nfs := Normalize(Obj(fs)).fields;
    assert |nfs| == |idx|;
    assert forall i :: 0 <= i < |idx| ==> nfs[i] == (fs[idx[i]].0, Normalize(fs[idx[i]].1));
    assert DistinctKeys(nfs);
    forall k ensures Lookup(nfs, k) == Normalize(Lookup(fs, k)) {
      var j := IndexOf(fs, k);
      if j < |fs| && fs[j].1 != Undefined {
        var i :| 0 <= i < |idx| && idx[i] == j;
        LookupAt(nfs, i);
      } else {
        forall i | 0 <= i < |nfs| ensures nfs[i].0 != k {
          if nfs[i].0 == k {
            LookupAt(fs, idx[i]);
          }
        }
        LookupAbsent(nfs, k);
      }
    }
  }

  // ---------------------------------------------------------------------------
  // JSON.stringify of a string
  // ---------------------------------------------------------------------------

  function HexDigit(d: nat): (c: char)
    requires d < 16
  {
    "0123456789abcdef"[d]
  }

  /** How `JSON.stringify` writes one character inside a string literal. */
  function EscapeChar(c: char): string {
    if c == '"' then "\\\""
    else if c == '\\' then "\\\\"
    else if c == '\U{0008}' then "\\b"
    else if c == '\U{000C}' then "\\f"
    else if c == '\n' then "\\n"
    else if c == '\r' then "\\r"
    else if c == '\t' then "\\t"
    else if c < ' ' then "\\u00" + [HexDigit(c as int / 16), HexDigit(c as int % 16)]
    else [c]
  }

  function EscapeAll(s: string): string {
    if |s| == 0 then "" else EscapeChar(s[0]) + EscapeAll(s[1..])
  }

  /** `JSON.stringify(s)` for a string `s`. */
  function Quote(s: string): string {
    "\"" + EscapeAll(s) + "\""
  }

  function HexValue(c: char): Option<nat> {
    if '0' <= c <= '9' then Some(c as int - '0' as int)
    else if 'a' <= c <= 'f' then Some(c as int - 'a' as int + 10)
    else if 'A' <= c <= 'F' then Some(c as int - 'A' as int + 10)
    else None
  }

  function SimpleEscape(c: char): Option<char> {
    if c == '"' then Some('"')
    else if c == '\\' then Some('\\')
    else if c == '/' then Some('/')
    else if c == 'b' then Some('\U{0008}')
    else if c == 'f' then Some('\U{000C}')
    else if c == 'n' then Some('\n')
    else if c == 'r' then Some('\r')
    else if c == 't' then Some('\t')
    else None
  }

  function Prepend(c: char, r: Option<string>): Option<string> {
    if r.Some? then Some([c] + r.value) else None
  }

  /** How `JSON.parse` reads the body of a string literal (characters outside
      the Basic Multilingual Plane written as surrogate escapes are refused). */
  function Unescape(t: string): Option<string>
    decreases |t|
  {
    if |t| == 0 then Some("")
    else if t[0] == '\\' then
      if |t| >= 2 && SimpleEscape(t[1]).Some? then
        Prepend(SimpleEscape(t[1]).value, Unescape(t[2..]))
      else if |t| >= 6 && t[1] == 'u' && HexValue(t[2]).Some? && HexValue(t[3]).Some?
              && HexValue(t[4]).Some? && HexValue(t[5]).Some? then
        var code := ((HexValue(t[2]).value * 16 + HexValue(t[3]).value) * 16
                     + HexValue(t[4]).value) * 16 + HexValue(t[5]).value;
        if 0xD800 <= code < 0xE000 then None
        else Prepend(code as char, Unescape(t[6..]))
      else None
    else if t[0] == '"' || t[0] < ' ' then None
    else Prepend(t[0], Unescape(t[1..]))
  }

  lemma HexDigitValue(d: nat)
    requires d < 16
    ensures HexValue(HexDigit(d)) == Some(d)
  {
  }

  /** A control character written as a `\u00XX` escape reads back as itself. */
  lemma UnescapeControl(c: char, rest: string)
    requires c < ' ' && c != '\U{0008}' && c != '\U{000C}' && c != '\n' && c != '\r' && c != '\t'
    ensures Unescape(EscapeChar(c) + rest) == Prepend(c, Unescape(rest))
  {
    var t := EscapeChar(c) + rest;
    var hi := c as int / 16;
    var lo := c as int % 16;
    HexDigitValue(0);
    HexDigitValue(hi);
    HexDigitValue(lo);
    assert t[0] == '\\' && t[1] == 'u';
    assert t[2] == HexDigit(0) && t[3] == HexDigit(0) && t[4] == HexDigit(hi) && t[5] == HexDigit(lo);
    assert t[6..] == rest;
  }

  lemma UnescapeChar(c: char, rest: string)
    ensures Unescape(EscapeChar(c) + rest) == Prepend(c, Unescape(rest))
  {
    var t := EscapeChar(c) + rest;
    if c < ' ' && c != '\U{0008}' && c != '\U{000C}' && c != '\n' && c != '\r' && c != '\t' {
      UnescapeControl(c, rest);
    } else if |EscapeChar(c)| == 2 {
      assert t[2..] == rest;
    } else {
      assert t[1..] == rest;
    }
  }

  /** Reading back what `JSON.stringify` wrote for a string gives the string. */
  lemma {:induction false} EscapeRoundTrip(s: string)
    ensures Unescape(EscapeAll(s)) == Some(s)
    decreases |s|
  {
    if |s| > 0 {
      EscapeRoundTrip(s[1..]);
      UnescapeChar(s[0], EscapeAll(s[1..]));
      assert [s[0]] + s[1..] == s;
    }
  }

  /** Distinct strings are written as distinct JSON literals. */
  lemma QuoteInjective(a: string, b: string)
    requires Quote(a) == Quote(b)
    ensures a == b
  {
    assert EscapeAll(a) == Quote(a)[1..|Quote(a)| - 1];
    assert EscapeAll(b) == Quote(b)[1..|Quote(b)| - 1];
    EscapeRoundTrip(a);
    EscapeRoundTrip(b);
  }

  // ---------------------------------------------------------------------------
  // stableStringify
  // ---------------------------------------------------------------------------

  /** The keys of `ks` whose property in `fs` is not `undefined`, in order. */
  function FilterDefined(fs: Fields, ks: seq<string>): (r: seq<string>)
    ensures forall k :: k in r <==> k in ks && Lookup(fs, k) != Undefined
    ensures StringOrder.Distinct(ks) ==> StringOrder.Distinct(r)
  {
    if |ks| == 0 then []
    else
      var rest := FilterDefined(fs, ks[1..]);
      assert StringOrder.Distinct(ks) ==> ks[0] !in ks[1..];
      if Lookup(fs, ks[0]) != Undefined then [ks[0]] + rest else rest
  }

  /** `Object.keys(o).filter((k) => o[k] !== undefined)`. */
  function DefinedKeys(fs: Fields): seq<string> {
    FilterDefined(fs, Keys(fs))
  }

  lemma DefinedKeysMembers(fs: Fields)
    ensures forall k :: k in DefinedKeys(fs) <==> Lookup(fs, k) != Undefined
  {
    forall k | Lookup(fs, k) != Undefined ensures k in Keys(fs) {
      assert Keys(fs)[IndexOf(fs, k)] == k;
    }
  }

  /** The canonical text the signature is computed over: `undefined` is
      empty, objects list their defined properties with keys in ascending
      order, arrays write `undefined` slots as `null`. */
  function Stringify(v: Value): string
    decreases v, 1, 0
  {
    match v
    case Undefined => ""
    case Null => "null"
    case Bool(b) => if b then "true" else "false"
    case Num(n) => IntToString(n)
    case Str(s) => Quote(s)
    case Arr(items) => "[" + Join(ItemTexts(items, 0), ",") + "]"
    case Obj(fs) => "{" + Join(MemberTexts(fs, StringOrder.Sort(DefinedKeys(fs))), ",") + "}"
  }

  /** The texts of the array slots from `from` on. */
  function ItemTexts(items: seq<Value>, from: nat): seq<string>
    requires from <= |items|
    decreases Arr(items), 0, |items| - from
  {
    if from == |items| then []
    else
      [if items[from] == Undefined then "null" else Stringify(items[from])]
      + ItemTexts(items, from + 1)
  }

  /** `"key":text` for each key of `keys`, reading the property from `fs`. */
  function MemberTexts(fs: Fields, keys: seq<string>): seq<string>
    decreases Obj(fs), 0, |keys|
  {
    if |keys| == 0 then []
    else
      var j := IndexOf(fs, keys[0]);
      [Quote(keys[0]) + ":" + (if j < |fs| then Stringify(fs[j].1) else "")]
      + MemberTexts(fs, keys[1..])
  }

  /** The sorted key list of an object depends only on which keys are defined. */
  lemma SortedDefinedKeysEqual(fs1: Fields, fs2: Fields)
    requires DistinctKeys(fs1) && DistinctKeys(fs2)
    requires forall k :: (Lookup(fs1, k) == Undefined) == (Lookup(fs2, k) == Undefined)
    ensures StringOrder.Sort(DefinedKeys(fs1)) == StringOrder.Sort(DefinedKeys(fs2))
  {
    var d1, d2 := DefinedKeys(fs1), DefinedKeys(fs2);
    assert StringOrder.Distinct(Keys(fs1));
    assert StringOrder.Distinct(Keys(fs2));
    DefinedKeysMembers(fs1);
    DefinedKeysMembers(fs2);
    StringOrder.SortStrict(d1);
    StringOrder.SortStrict(d2);
    StringOrder.StrictlySortedUnique(StringOrder.Sort(d1), StringOrder.Sort(d2));
  }

  /** Member texts agree when both objects read every listed key alike. */
  lemma {:induction false} MemberTextsSameLookup(fs1: Fields, fs2: Fields, keys: seq<string>)
    requires forall k :: k in keys ==> Lookup(fs1, k) == Lookup(fs2, k) && Lookup(fs1, k) != Undefined
    ensures MemberTexts(fs1, keys) == MemberTexts(fs2, keys)
    decreases |keys|
  {
    if |keys| > 0 {
      assert keys[0] in keys;
      MemberTextsSameLookup(fs1, fs2, keys[1..]);
    }
  }

  /** Objects whose properties read the same have the same canonical text,
      whatever the order their fields were written in. */
  lemma StringifySameLookup(fs1: Fields, fs2: Fields)
    requires DistinctKeys(fs1) && DistinctKeys(fs2)
    requires forall k :: Lookup(fs1, k) == Lookup(fs2, k)
    ensures Stringify(Obj(fs1)) == Stringify(Obj(fs2))
  {
    SortedDefinedKeysEqual(fs1, fs2);
    var keys := StringOrder.Sort(DefinedKeys(fs1));
    DefinedKeysMembers(fs1);
    StringOrder.SortStrict(DefinedKeys(fs1));
    MemberTextsSameLookup(fs1, fs2, keys);
  }

  lemma LookupFromPairs(fs1: Fields, fs2: Fields, k: string)
    requires DistinctKeys(fs1) && DistinctKeys(fs2)
    requires forall kv :: kv in fs1 ==> kv in fs2
    requires IndexOf(fs1, k) < |fs1|
    ensures Lookup(fs1, k) == Lookup(fs2, k)
  {
    var j := IndexOf(fs1, k);
    assert fs1[j] in fs2;
    var m :| 0 <= m < |fs2| && fs2[m] == fs1[j];
    LookupAt(fs2, m);
  }

  /** Field order never matters: two objects with the same fields (each key
      once) have the same canonical text. */
  lemma StringifyFieldOrder(fs1: Fields, fs2: Fields)
    requires DistinctKeys(fs1) && DistinctKeys(fs2)
    requires forall kv :: kv in fs1 <==> kv in fs2
    ensures Stringify(Obj(fs1)) == Stringify(Obj(fs2))
  {
    forall k ensures Lookup(fs1, k) == Lookup(fs2, k) {
      if IndexOf(fs1, k) < |fs1| {
        LookupFromPairs(fs1, fs2, k);
      }
      if IndexOf(fs2, k) < |fs2| {
        LookupFromPairs(fs2, fs1, k);
      }
    }
    StringifySameLookup(fs1, fs2);
  }

  /** An `undefined` property contributes nothing to the canonical text. */
  lemma StringifyIgnoresUndefinedField(fs: Fields, k: string)
    requires DistinctKeys(fs) && k !in Keys(fs)
    ensures Stringify(Obj(fs + [(k, Undefined)])) == Stringify(Obj(fs))
  {
    var fs2 := fs + [(k, Undefined)];
    assert DistinctKeys(fs2);
    forall x ensures Lookup(fs2, x) == Lookup(fs, x) {
      var j := IndexOf(fs, x);
      if j < |fs| {
        assert fs2[j] == fs[j];
        LookupAt(fs2, j);
      } else {
        assert forall i :: 0 <= i < |fs| ==> fs2[i].0 != x;
      }
    }
    StringifySameLookup(fs2, fs);
  }

  lemma {:induction false} ItemTextsNormalize(items: seq<Value>, from: nat)
    requires from <= |items|
    requires forall i :: 0 <= i < |items| ==> WellFormed(items[i])
    ensures ItemTexts(Normalize(Arr(items)).items, from) == ItemTexts(items, from)
    decreases Arr(items), 0, |items| - from
  {
    if from < |items| {
      var n := Normalize(Arr(items)).items;
      assert |n| == |items|;
      if items[from] != Undefined {
        StringifyNormalize(items[from]);
        assert n[from] == Normalize(items[from]) != Undefined;
      } else {
        assert n[from] == Null;
      }
      ItemTextsNormalize(items, from + 1);
      assert ItemTexts(n, from) == [if n[from] == Undefined then "null" else Stringify(n[from])] + ItemTexts(n, from + 1);
    }
  }

  lemma {:induction false} MemberTextsNormalize(fs: Fields, keys: seq<string>)
    requires DistinctKeys(fs)
    requires forall i :: 0 <= i < |fs| ==> WellFormed(fs[i].1)
    requires forall k :: k in keys ==> Lookup(fs, k) != Undefined
    ensures Normalize(Obj(fs)).Obj?
    ensures MemberTexts(Normalize(Obj(fs)).fields, keys) == MemberTexts(fs, keys)
    decreases Obj(fs), 0, |keys|
  {
    NormalizeLookup(fs);
    if |keys| > 0 {
      var nfs := Normalize(Obj(fs)).fields;
      var k := keys[0];
      assert k in keys;
      var j := IndexOf(fs, k);
      var jn := IndexOf(nfs, k);
      assert nfs[jn].1 == Normalize(fs[j].1);
      StringifyNormalize(fs[j].1);
      MemberTextsNormalize(fs, keys[1..]);
    }
  }

  /** The canonical text survives a JSON round trip, so a signature computed
      before an envelope is written to a file still matches after it is read. */
  lemma {:induction false} StringifyNormalize(v: Value)
    requires WellFormed(v)
    ensures Stringify(Normalize(v)) == Stringify(v)
    decreases v, 1, 0
  {
    match v
    case Arr(items) =>
      ItemTextsNormalize(items, 0);
    case Obj(fs) =>
      NormalizeLookup(fs);
      var nfs := Normalize(v).fields;
      SortedDefinedKeysEqual(nfs, fs);
      var keys := StringOrder.Sort(DefinedKeys(fs));
      DefinedKeysMembers(fs);
      StringOrder.SortStrict(DefinedKeys(fs));
      MemberTextsNormalize(fs, keys);
    case _ =>
  }

  // ---------------------------------------------------------------------------
  // Coercions
  // ---------------------------------------------------------------------------

  /** `String(v)`. Arrays join their elements' strings with "," (`null` and
      `undefined` elements are empty); plain objects print as "[object Object]". */
  function ToJsString(v: Value): string
    decreases v
  {
    match v
    case Undefined => "undefined"
    case Null => "null"
    case Bool(b) => if b then "true" else "false"
    case Num(n) => IntToString(n)
    case Str(s) => s
    case Arr(items) =>
      Join(seq(|items|, i requires 0 <= i < |items| =>
        if items[i] == Undefined || items[i] == Null then "" else ToJsString(items[i])), ",")
    case Obj(_) => "[object Object]"
  }

  /** `Boolean(v)`. */
  predicate Truthy(v: Value) {
    match v
    case Undefined => false
    case Null => false
    case Bool(b) => b
    case Num(n) => n != 0
    case Str(s) => s != ""
    case Arr(_) => true
    case Obj(_) => true
  }

  /** The result of `Number(...)`: an integer or NaN. */
  datatype JsNum = Int(i: int) | NaN {
    /** `a + b` in floating point, where NaN absorbs everything. */
    function Plus(other: JsNum): JsNum {
      if Int? && other.Int? then Int(i + other.i) else NaN
    }

    /** `n > 0`: false for NaN. */
    predicate Positive() {
      Int? && i > 0
    }

    /** The JSON image of the number: NaN is written as `null`. */
    function ToValue(): Value {
      if Int? then Num(i) else Null
    }
  }

  predicate AllDigits(s: string) {
    forall i :: 0 <= i < |s| ==> IsDigit(s[i])
  }

  /** `Number(s)` for a string: surrounding whitespace is ignored, the empty
      string is 0, an optionally signed run of decimal digits is its value, and
      any other text is NaN. */
  function StringToNumber(s: string): JsNum {
    ParseTrimmedNumber(Trim(s))
  }

  function ParseTrimmedNumber(t: string): JsNum {
    if t == "" then Int(0)
    else if AllDigits(t) then Int(DigitsValue(t))
    else if |t| > 1 && t[0] == '-' && AllDigits(t[1..]) then Int(0 - DigitsValue(t[1..]))
    else if |t| > 1 && t[0] == '+' && AllDigits(t[1..]) then Int(DigitsValue(t[1..]))
    else NaN
  }

  /** `Number(v)`. */
  function ToNumber(v: Value): JsNum {
    match v
    case Undefined => NaN
    case Null => Int(0)
    case Bool(b) => if b then Int(1) else Int(0)
    case Num(n) => Int(n)
    case Str(s) => StringToNumber(s)
    case Arr(_) => StringToNumber(ToJsString(v))
    case Obj(_) => NaN
  }

  lemma PrintedIntTrimmed(n: int)
    ensures Trim(IntToString(n)) == IntToString(n)
  {
    var s := IntToString(n);
    assert IsDigit(s[|s| - 1]);
    assert !IsWhitespace(s[0]) && !IsWhitespace(s[|s| - 1]);
    TrimOfTrimmed(s);
  }

  lemma ParsePrintedInt(n: int)
    ensures ParseTrimmedNumber(IntToString(n)) == Int(n)
  {
    var s := IntToString(n);
    if n < 0 {
      var digits := NatToString(-n);
      assert s[1..] == digits;
      NatToStringRoundTrip(-n);
      assert !IsDigit(s[0]);
    } else {
      NatToStringRoundTrip(n);
    }
  }

  /** Every integer survives `Number(String(n))`. */
  lemma NumberOfPrintedInt(n: int)
    ensures StringToNumber(IntToString(n)) == Int(n)
  {
    PrintedIntTrimmed(n);
    ParsePrintedInt(n);
  }
}
