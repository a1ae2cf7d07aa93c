/**
 * The PHP values that reach the recipe tool through its context values, and
 * the PHP built-ins it applies to them: empty(), is_numeric(), isset() on an
 * array element, string conversion, trim() and loose comparison with a string.
 */
module PhpValues {
  import opened Wrappers

  /** A PHP array key. */
  datatype Key = IntKey(i: int) | StrKey(s: string)

  /**
   * A PHP value. Arrays are ordered maps, written as their entries in
   * iteration order. Floats, objects and resources are not modelled.
   */
  datatype Value =
    | Null
    | Bool(b: bool)
    | Int(i: int)
    | Str(s: string)
    | Arr(entries: seq<Entry>)

  datatype Entry = Entry(key: Key, val: Value)

  // ---------------------------------------------------------------------------
  // empty()

  /** PHP's empty(): null, false, 0, "", "0" and the empty array. */
  predicate IsEmpty(v: Value) {
    match v
    case Null => true
    case Bool(b) => !b
    case Int(i) => i == 0
    case Str(s) => s == "" || s == "0"
    case Arr(es) => |es| == 0
  }

  // ---------------------------------------------------------------------------
  // is_numeric()

  /** The whitespace PHP 8 allows around a numeric string. */
  predicate IsNumericSpace(c: char) {
    c == ' ' || c == '\t' || c == '\n' || c == '\r' || c == '\U{000B}' || c == '\U{000C}'
  }

  predicate IsDigit(c: char) {
    '0' <= c <= '9'
  }

  /** The first position at or after i that is not numeric whitespace. */
  function SkipSpace(s: string, i: nat): (j: nat)
    requires i <= |s|
    ensures i <= j <= |s|
    ensures forall k :: i <= k < j ==> IsNumericSpace(s[k])
    ensures j < |s| ==> !IsNumericSpace(s[j])
    decreases |s| - i
  {
    if i < |s| && IsNumericSpace(s[i]) then SkipSpace(s, i + 1) else i
  }

  /** The first position at or after i that is not a decimal digit. */
  function SkipDigits(s: string, i: nat): (j: nat)
    requires i <= |s|
    ensures i <= j <= |s|
    ensures forall k :: i <= k < j ==> IsDigit(s[k])
    ensures j < |s| ==> !IsDigit(s[j])
    decreases |s| - i
  {
    if i < |s| && IsDigit(s[i]) then SkipDigits(s, i + 1) else i
  }

  /** The end of an exponent part `[eE][+-]?digits` starting at i, or i when there is none. */
  function ExponentEnd(s: string, i: nat): (j: nat)
    requires i <= |s|
    ensures i <= j <= |s|
  {
    if i < |s| && (s[i] == 'e' || s[i] == 'E') then
      var k := if i + 1 < |s| && (s[i + 1] == '+' || s[i + 1] == '-') then i + 2 else i + 1;
      var d := SkipDigits(s, k);
      if d > k then d else i
    else i
  }

  /**
   * A PHP 8 numeric string: optional leading whitespace, an optional sign,
   * digits with an optional fraction (or a fraction alone), an optional
   * exponent, and optional trailing whitespace.
   */
  predicate IsNumericString(s: string) {
    var start := SkipSpace(s, 0);
    var afterSign := if start < |s| && (s[start] == '+' || s[start] == '-') then start + 1 else start;
    var afterInt := SkipDigits(s, afterSign);
    var afterFrac := if afterInt < |s| && s[afterInt] == '.' then SkipDigits(s, afterInt + 1) else afterInt;
    var hasDigits := afterInt > afterSign || afterFrac > afterInt + 1;
    hasDigits && SkipSpace(s, ExponentEnd(s, afterFrac)) == |s|
  }

  /** PHP's is_numeric(): integers and numeric strings. */
  predicate IsNumeric(v: Value) {
    match v
    case Int(_) => true
    case Str(s) => IsNumericString(s)
    case _ => false
  }

  /** A string whose first character cannot begin a number is not numeric. */
  lemma NonNumericStart(s: string)
    requires |s| > 0
    requires !IsNumericSpace(s[0]) && !IsDigit(s[0]) && s[0] != '+' && s[0] != '-' && s[0] != '.'
    ensures !IsNumericString(s)
  {
    assert SkipSpace(s, 0) == 0;
    assert SkipDigits(s, 0) == 0;
  }

  // ---------------------------------------------------------------------------
  // Conversion to string

  function DigitChar(d: nat): (c: char)
    requires d < 10
    ensures IsDigit(c)
  {
    ('0' as int + d) as char
  }

  /** The decimal digits of n, most significant first. */
  function NatToString(n: nat): string
    decreases n
  {
    if n < 10 then [DigitChar(n)] else NatToString(n / 10) + [DigitChar(n % 10)]
  }

  /** The decimal form PHP gives an integer. */
  function IntToString(i: int): string {
    if i < 0 then "-" + NatToString(-i) else NatToString(i)
  }

  /** The string PHP's `.` operator and `%s` make of a value. */
  function ToPhpString(v: Value): string {
    match v
    case Null => ""
    case Bool(b) => if b then "1" else ""
    case Int(i) => IntToString(i)
    case Str(s) => s
    case Arr(_) => "Array"
  }

  lemma {:induction false} NatToStringDigits(n: nat)
    ensures |NatToString(n)| > 0
    ensures forall k :: 0 <= k < |NatToString(n)| ==> IsDigit(NatToString(n)[k])
    decreases n
  {
    if n >= 10 {
      NatToStringDigits(n / 10);
    }
  }

  lemma SkipDigitsToEnd(s: string, i: nat)
    requires i <= |s|
    requires forall k :: i <= k < |s| ==> IsDigit(s[k])
    ensures SkipDigits(s, i) == |s|
  {
  }

  /** Every integer PHP prints is a numeric string again. */
  lemma IntToStringIsNumeric(i: int)
    ensures IsNumericString(IntToString(i))
  {
    var s := IntToString(i);
    NatToStringDigits(if i < 0 then -i else i);
    var afterSign := if i < 0 then 1 else 0;
    assert s[0] == '-' || IsDigit(s[0]);
    assert SkipSpace(s, 0) == 0;
    SkipDigitsToEnd(s, afterSign);
    assert SkipDigits(s, afterSign) == |s| > afterSign;
  }

  /** A printed integer starts with a digit or a minus sign. */
  lemma IntToStringStart(i: int)
    ensures |IntToString(i)| > 0
    ensures IntToString(i)[0] == '-' || IsDigit(IntToString(i)[0])
  {
    NatToStringDigits(if i < 0 then -i else i);
  }

  // ---------------------------------------------------------------------------
  // isset($array[key])

  /** The value stored under key k; PHP keys are unique, so the first match is the one. */
  function Lookup(es: seq<Entry>, k: Key): (r: Option<Value>)
    ensures r.Some? <==> exists j :: 0 <= j < |es| && es[j].key == k
    ensures r.Some? ==> exists j :: 0 <= j < |es| && es[j].key == k && es[j].val == r.value
  {
    if es == [] then None
    else if es[0].key == k then Some(es[0].val)
    else
      var r := Lookup(es[1..], k);
      assert forall j :: 1 <= j < |es| ==> es[j] == es[1..][j - 1];
      r
  }

  /** `$v[k]` for an array v, with null for a missing key. */
  function Element(v: Value, k: Key): Value
    requires v.Arr?
  {
    match Lookup(v.entries, k)
    case Some(x) => x
    case None => Null
  }

  /** PHP's isset($v[k]): v is an array holding k with a non-null value. */
  predicate Isset(v: Value, k: Key) {
    v.Arr? && Element(v, k) != Null
  }

  /** The values of an array in iteration order, as `foreach` visits them. */
  function ArrayValues(es: seq<Entry>): (vs: seq<Value>)
    ensures |vs| == |es|
    ensures forall j :: 0 <= j < |es| ==> vs[j] == es[j].val
  {
    seq(|es|, j requires 0 <= j < |es| => es[j].val)
  }

  // ---------------------------------------------------------------------------
  // trim()

  /** The characters PHP's trim() strips by default: space, \t, \n, \r, \0 and \x0B. */
  predicate IsTrimChar(c: char) {
    c == ' ' || c == '\t' || c == '\n' || c == '\r' || c == '\0' || c == '\U{000B}'
  }

  predicate AllTrimChars(s: string) {
    forall k :: 0 <= k < |s| ==> IsTrimChar(s[k])
  }

  function TrimLeft(s: string): string {
    if s != [] && IsTrimChar(s[0]) then TrimLeft(s[1..]) else s
  }

  function TrimRight(s: string): string {
    if s != [] && IsTrimChar(s[|s| - 1]) then TrimRight(s[..|s| - 1]) else s
  }

  /** PHP's trim() with its default character list. */
  function Trim(s: string): string {
    TrimRight(TrimLeft(s))
  }

  lemma {:induction false} TrimLeftSplits(s: string)
    ensures exists p :: AllTrimChars(p) && s == p + TrimLeft(s)
    ensures TrimLeft(s) != [] ==> !IsTrimChar(TrimLeft(s)[0])
  {
    if s != [] && IsTrimChar(s[0]) {
      TrimLeftSplits(s[1..]);
      var p :| AllTrimChars(p) && s[1..] == p + TrimLeft(s[1..]);
      assert s == [s[0]] + p + TrimLeft(s);
      assert AllTrimChars([s[0]] + p);
    } else {
      assert s == [] + TrimLeft(s);
    }
  }

  lemma {:induction false} TrimRightSplits(s: string)
    ensures exists q :: AllTrimChars(q) && s == TrimRight(s) + q
    ensures TrimRight(s) != [] ==> !IsTrimChar(TrimRight(s)[|TrimRight(s)| - 1])
  {
    if s != [] && IsTrimChar(s[|s| - 1]) {
      var init := s[..|s| - 1];
      TrimRightSplits(init);
      var q :| AllTrimChars(q) && init == TrimRight(init) + q;
      assert s == init + [s[|s| - 1]];
      assert s == TrimRight(s) + (q + [s[|s| - 1]]);
      assert AllTrimChars(q + [s[|s| - 1]]);
    } else {
      assert s == TrimRight(s) + [];
    }
  }

  /** TrimRight removes a tail of trim characters and stops at the first other character. */
  lemma {:induction false} TrimRightDropsTrail(s: string, q: string)
    requires s != [] && !IsTrimChar(s[|s| - 1])
    requires AllTrimChars(q)
    ensures TrimRight(s + q) == s
    decreases |q|
  {
    if q == [] {
      assert s + q == s;
    } else {
      var init := q[..|q| - 1];
      assert (s + q)[..|s + q| - 1] == s + init;
      TrimRightDropsTrail(s, init);
    }
  }

  /**
   * trim() removes only trim characters, and only from the two ends, and
   * leaves neither end on a trim character.
   */
  lemma TrimSplits(s: string)
    ensures exists p, q :: AllTrimChars(p) && AllTrimChars(q) && s == p + Trim(s) + q
    ensures Trim(s) != [] ==> !IsTrimChar(Trim(s)[0]) && !IsTrimChar(Trim(s)[|Trim(s)| - 1])
  {
    TrimLeftSplits(s);
    var p :| AllTrimChars(p) && s == p + TrimLeft(s);
    TrimRightSplits(TrimLeft(s));
    var q :| AllTrimChars(q) && TrimLeft(s) == Trim(s) + q;
    assert s == p + Trim(s) + q;
    if Trim(s) != [] {
      TrimRightKeepsStart(TrimLeft(s));
    }
  }

  lemma {:induction false} TrimRightKeepsStart(s: string)
    requires TrimRight(s) != []
    ensures TrimRight(s)[0] == s[0]
  {
    if s != [] && IsTrimChar(s[|s| - 1]) {
      TrimRightKeepsStart(s[..|s| - 1]);
    }
  }

  // ---------------------------------------------------------------------------
  // Loose comparison with a string (==, and in_array without strict)

  /**
   * PHP 8's `v == s` for a string s that is not numeric: null compares as "",
   * a boolean against the truth value of s, an integer and a string as
   * strings, and an array is never equal to a string.
   */
  predicate LooseEqualsString(v: Value, s: string)
    requires !IsNumericString(s)
  {
    match v
    case Null => s == ""
    case Bool(b) => b == (s != "" && s != "0")
    case Int(i) => IntToString(i) == s
    case Str(t) => t == s
    case Arr(_) => false
  }
}
