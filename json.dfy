/**
 * JSON values as the plugin sees them (an HTTP response body, a sensor entry
 * of the platform configuration), with the few JavaScript notions the core
 * relies on: truthiness, `typeof`, the own property `key in value`, and
 * `String.prototype.split('.')` for dotted paths.
 */
module JsonValue {
  import opened Wrappers

  datatype Json =
    | JNull
    | JBool(b: bool)
    | JNumber(n: real)
    | JString(s: string)
    | JArray(items: seq<Json>)
    | JObject(fields: map<string, Json>)

  /** JavaScript truthiness: `null`, `false`, `0` and `""` are falsy, every array and object is truthy. */
  predicate Truthy(v: Json) {
    match v
    case JNull => false
    case JBool(b) => b
    case JNumber(n) => n != 0.0
    case JString(s) => s != ""
    case _ => true
  }

  /** `typeof v === 'object'`: null, arrays and objects. */
  predicate IsObjectType(v: Json) {
    v.JNull? || v.JArray? || v.JObject?
  }

  /** JavaScript `typeof`; note that `typeof null` is "object". */
  function TypeOf(v: Json): (t: string)
    ensures t == "object" <==> IsObjectType(v)
  {
    match v
    case JNull => "object"
    case JBool(_) => "boolean"
    case JNumber(_) => "number"
    case JString(_) => "string"
    case JArray(_) => "object"
    case JObject(_) => "object"
  }

  // ---------------------------------------------------------------------
  // Array index keys: an array has an own property for each canonical
  // decimal index below its length, and for "length".
  // ---------------------------------------------------------------------

  predicate IsDigit(c: char) {
    '0' <= c <= '9'
  }

  predicate AllDigits(s: string) {
    forall i | 0 <= i < |s| :: IsDigit(s[i])
  }

  function DigitChar(d: nat): (c: char)
    requires d < 10
    ensures IsDigit(c) && (c == '0' <==> d == 0)
  {
    ('0' as int + d) as char
  }

  function DecimalValue(s: string): nat
    requires AllDigits(s)
    decreases |s|
  {
    if s == [] then 0
    else DecimalValue(s[..|s| - 1]) * 10 + ((s[|s| - 1] as int) - ('0' as int))
  }

  /** The decimal numeral of `n`, as `String(n)` writes it. */
  function DecimalString(n: nat): (s: string)
    ensures s != [] && AllDigits(s)
    ensures s[0] == '0' <==> n == 0
    ensures n == 0 ==> s == "0"
  {
    if n < 10 then [DigitChar(n)] else DecimalString(n / 10) + [DigitChar(n % 10)]
  }

  /** The array index a key denotes: canonical numerals only ("01" and "" denote none). */
  function CanonicalIndex(key: string): Option<nat> {
    if key != [] && AllDigits(key) && (key[0] != '0' || |key| == 1)
    then Some(DecimalValue(key))
    else None
  }

  lemma {:induction false} DecimalValueOfString(n: nat)
    ensures DecimalValue(DecimalString(n)) == n
  {
    var s := DecimalString(n);
    if n >= 10 {
      DecimalValueOfString(n / 10);
      assert s[..|s| - 1] == DecimalString(n / 10);
    }
  }

  /** A numeral whose first digit is not zero denotes a positive number. */
  lemma {:induction false} LeadingDigitPositive(s: string)
    requires s != [] && AllDigits(s) && s[0] != '0'
    ensures DecimalValue(s) >= 1
  {
    if |s| > 1 {
      LeadingDigitPositive(s[..|s| - 1]);
    }
  }

  lemma {:induction false} DecimalStringOfValue(s: string)
    requires s != [] && AllDigits(s) && (s[0] != '0' || |s| == 1)
    ensures DecimalString(DecimalValue(s)) == s
  {
    var n := DecimalValue(s);
    if |s| == 1 {
      assert s[..0] == [];
      assert DecimalValue(s[..0]) == 0;
      assert n == (s[0] as int) - ('0' as int);
      assert s == [DigitChar(n)];
    } else {
      var init := s[..|s| - 1];
      LeadingDigitPositive(init);
      DecimalStringOfValue(init);
      assert n / 10 == DecimalValue(init);
      assert s == init + [s[|s| - 1]];
    }
  }

  /** A key is an array index exactly when it is the numeral of that index. */
  lemma IndexKeyIff(key: string, n: nat)
    ensures CanonicalIndex(key) == Some(n) <==> key == DecimalString(n)
  {
    if key == DecimalString(n) {
      DecimalValueOfString(n);
    }
    if CanonicalIndex(key) == Some(n) {
      DecimalStringOfValue(key);
    }
  }

  /**
   * The own property `key` of `v`, present when `v && typeof v === 'object' && key in v`.
   * Properties inherited through the prototype chain are not modelled.
   */
  function Member(v: Json, key: string): (r: Option<Json>)
    ensures r.Some? ==> Truthy(v) && IsObjectType(v)
  {
    match v
    case JObject(fields) => if key in fields then Some(fields[key]) else None
    case JArray(items) =>
      if key == "length" then Some(JNumber(|items| as real))
      else (match CanonicalIndex(key)
            case Some(i) => if i < |items| then Some(items[i]) else None
            case None => None)
    case _ => None
  }

  // ---------------------------------------------------------------------
  // `path.split('.')`
  // ---------------------------------------------------------------------

  /** `s.split('.')`: the pieces between dots, always at least one (`"".split('.')` is `[""]`). */
  function Split(s: string): (parts: seq<string>)
    ensures |parts| >= 1
    ensures forall k | 0 <= k < |parts| :: '.' !in parts[k]
    decreases |s|
  {
    if s == [] then [[]]
    else if s[0] == '.' then [[]] + Split(s[1..])
    else
      var rest := Split(s[1..]);
      [[s[0]] + rest[0]] + rest[1..]
  }

  /** `parts.join('.')`, the inverse of Split. */
  function Join(parts: seq<string>): string
    requires |parts| >= 1
    decreases |parts|
  {
    if |parts| == 1 then parts[0] else parts[0] + "." + Join(parts[1..])
  }

  lemma {:induction false} JoinOfSplit(s: string)
    ensures Join(Split(s)) == s
    decreases |s|
  {
    if s == [] {
    } else if s[0] == '.' {
      JoinOfSplit(s[1..]);
      assert Split(s)[1..] == Split(s[1..]);
      assert s == "." + s[1..];
    } else {
      JoinOfSplit(s[1..]);
      JoinOfSplitStep(s);
    }
  }

  /** The step for a first character other than a dot: it joins the first piece. */
  lemma JoinOfSplitStep(s: string)
    requires s != [] && s[0] != '.' && Join(Split(s[1..])) == s[1..]
    ensures Join(Split(s)) == s
  {
    var rest := Split(s[1..]);
    var parts := [[s[0]] + rest[0]] + rest[1..];
    assert Split(s) == parts;
    if |rest| == 1 {
      JoinSingle(s[0], rest);
    } else {
      JoinCons(s[0], rest);
    }
    assert Join(parts) == [s[0]] + s[1..];
    assert [s[0]] + s[1..] == s;
  }

  lemma JoinSingle(c: char, rest: seq<string>)
    requires |rest| == 1
    ensures Join([[c] + rest[0]] + rest[1..]) == [c] + Join(rest)
  {
    assert [[c] + rest[0]] + rest[1..] == [[c] + rest[0]];
  }

  lemma JoinCons(c: char, rest: seq<string>)
    requires |rest| > 1
    ensures Join([[c] + rest[0]] + rest[1..]) == [c] + Join(rest)
  {
    var parts := [[c] + rest[0]] + rest[1..];
    assert parts[1..] == rest[1..];
    var tail := Join(rest[1..]);
    assert ([c] + rest[0]) + "." + tail == [c] + (rest[0] + "." + tail);
  }

  /** Splitting a dot-free prefix glued to the rest extends the first piece. */
  lemma {:induction false} SplitDotFreePrefix(p: string, t: string)
    requires '.' !in p
    ensures Split(p + t) == [p + Split(t)[0]] + Split(t)[1..]
    decreases |p|
  {
    if p != [] {
      SplitDotFreePrefix(p[1..], t);
      assert p[0] in p;
      assert (p + t)[0] == p[0] && (p + t)[1..] == p[1..] + t;
      var rest := Split(p[1..] + t);
      assert Split(p + t) == [[p[0]] + rest[0]] + rest[1..];
      assert [p[0]] + (p[1..] + Split(t)[0]) == p + Split(t)[0];
    } else {
      assert p + t == t && p + Split(t)[0] == Split(t)[0];
      assert Split(t) == [Split(t)[0]] + Split(t)[1..];
    }
  }

  lemma {:induction false} SplitOfJoin(parts: seq<string>)
    requires |parts| >= 1
    requires forall k | 0 <= k < |parts| :: '.' !in parts[k]
    ensures Split(Join(parts)) == parts
    decreases |parts|
  {
    if |parts| == 1 {
      SplitDotFreePrefix(parts[0], []);
      assert parts[0] + [] == parts[0];
    } else {
      var tail := Join(parts[1..]);
      SplitOfJoin(parts[1..]);
      SplitDotFreePrefix(parts[0], "." + tail);
      assert ("." + tail)[1..] == tail;
      assert Split("." + tail) == [[]] + parts[1..];
      assert parts[0] + "." + tail == parts[0] + ("." + tail);
      assert parts[0] + [] == parts[0];
    }
  }
}
