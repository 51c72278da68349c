/**
 * The JSON values that travel through the chat: tool results, request bodies and upstream replies.
 * Both source files treat them as untyped JavaScript values (`any`), and their behaviour depends on
 * JavaScript's implicit conversions: template-literal interpolation (`String(v)`), truthiness, the
 * loose comparison `v > 1`, and React's rendering of a value placed as a child in JSX. Those
 * conversions are defined here once, for the value shapes JSON can produce. Numbers are integers.
 */
module JsValue {
  import opened Wrappers
  import opened Text

  datatype Value =
    | JNull
    | JBool(b: bool)
    | JNum(n: int)
    | JStr(s: string)
    | JArr(items: seq<Value>)
    | JObj(fields: map<string, Value>)

  // ---------------------------------------------------------------------------------------------
  // Decimal numerals

  predicate IsDigit(c: char)
  {
    '0' <= c <= '9'
  }

  predicate AllDigits(s: string)
  {
    forall i :: 0 <= i < |s| ==> IsDigit(s[i])
  }

  function DigitChar(d: nat): (c: char)
    requires d < 10
    ensures IsDigit(c) && c as int - '0' as int == d
  {
    ('0' as int + d) as char
  }

  /** The decimal numeral of `n`, as `String(n)` writes it: no sign, no leading zero. */
  function NatToDecimal(n: nat): (s: string)
    ensures |s| >= 1 && AllDigits(s)
    ensures s[0] == '0' ==> n == 0
    decreases n
  {
    if n < 10 then [DigitChar(n)] else NatToDecimal(n / 10) + [DigitChar(n % 10)]
  }

  /** The numeric value of a digit string; the empty string reads as 0, as `Number("")` does. */
  function ParseDecimal(s: string): nat
    requires AllDigits(s)
  {
    if s == [] then 0 else ParseDecimal(s[..|s| - 1]) * 10 + (s[|s| - 1] as int - '0' as int)
  }

  lemma {:induction false} ParseDecimalOfNatToDecimal(n: nat)
    ensures ParseDecimal(NatToDecimal(n)) == n
    decreases n
  {
    var s := NatToDecimal(n);
    if n >= 10 {
      ParseDecimalOfNatToDecimal(n / 10);
      assert s[..|s| - 1] == NatToDecimal(n / 10);
    }
  }

  /** `String(i)` for an integer: a minus sign before the magnitude of a negative number. */
  function IntToDecimal(i: int): (s: string)
    ensures |s| >= 1
    ensures i >= 0 ==> AllDigits(s) && ParseDecimal(s) == i
    ensures i >= 0 ==> (s[0] == '0' ==> i == 0)
    ensures i < 0 ==> s[0] == '-' && AllDigits(s[1..]) && ParseDecimal(s[1..]) == -i
    ensures i < 0 ==> |s| >= 2 && s[1] != '0'
  {
    if i < 0 then
      ParseDecimalOfNatToDecimal(-i);
      assert ("-" + NatToDecimal(-i))[1..] == NatToDecimal(-i);
      "-" + NatToDecimal(-i)
    else
      ParseDecimalOfNatToDecimal(i);
      NatToDecimal(i)
  }

  // ---------------------------------------------------------------------------------------------
  // Conversions

  /**
   * `String(v)`, which is what `${v}` inside a template literal produces. A number's text reads
   * back as that number, and only the empty string and arrays can print as nothing.
   */
  function TemplateText(v: Value): (r: string)
    ensures v.JNum? ==> StringToNumber(r) == Some(v.n)
    ensures v.JStr? ==> r == v.s
    ensures r == "" ==> v == JStr("") || v.JArr?
  {
    match v
    case JNull => "null"
    case JBool(b) => if b then "true" else "false"
    case JNum(n) => StringToNumberOfNumeral(n); IntToDecimal(n)
    case JStr(s) => s
    case JArr(items) => JoinItems(items)
    case JObj(_) => "[object Object]"
  }

  /** `Array.prototype.join(",")`: null elements become the empty string. */
  function JoinItems(items: seq<Value>): string
  {
    if items == [] then ""
    else
      var first := if items[0].JNull? then "" else TemplateText(items[0]);
      if |items| == 1 then first else first + "," + JoinItems(items[1..])
  }

  /** The falsy values JSON can produce. */
  const FalsyValues: set<Value> := {JNull, JBool(false), JNum(0), JStr("")}

  /** JavaScript truthiness: `null`, `false`, `0` and `""` are falsy, everything else is truthy. */
  function Truthy(v: Value): (r: bool)
    ensures r <==> v !in FalsyValues
  {
    match v
    case JNull => false
    case JBool(b) => b
    case JNum(n) => n != 0
    case JStr(s) => s != ""
    case JArr(_) => true
    case JObj(_) => true
  }

  /**
   * `Number(s)` for integer numerals: white space around the numeral is ignored, an optional
   * sign may precede its digits, and a blank string is 0. Every other string reads as NaN (None).
   */
  function StringToNumber(s: string): (r: Option<int>)
    ensures r.Some? <==> IsIntegerNumeral(Trim(s))
    ensures AllDigits(Trim(s)) ==> r == Some(ParseDecimal(Trim(s)))
    ensures SignedDigits(Trim(s), '+') ==> r == Some(ParseDecimal(Trim(s)[1..]))
    ensures SignedDigits(Trim(s), '-') ==> r == Some(0 - ParseDecimal(Trim(s)[1..]))
    ensures AllDigits(s) ==> r == Some(ParseDecimal(s))
    ensures (forall k :: 0 <= k < |s| ==> IsWhitespace(s[k])) ==> r == Some(0)
    ensures r.Some? ==> forall k :: 0 <= k < |s| ==> IsDigit(s[k]) || IsWhitespace(s[k]) || s[k] == '+' || s[k] == '-'
  {
    TrimOfDigits(s);
    TrimOfBlank(s);
    ParseNumeral(Trim(s))
  }

  /** A sign followed by at least one digit and nothing else. */
  predicate SignedDigits(t: string, sign: char)
  {
    |t| > 1 && t[0] == sign && AllDigits(t[1..])
  }

  /** The integer numerals `Number` reads once white space is trimmed: digits, optionally signed, or nothing. */
  predicate IsIntegerNumeral(t: string)
  {
    t == "" || AllDigits(t) || SignedDigits(t, '+') || SignedDigits(t, '-')
  }

  /** The number a trimmed numeral denotes: an optional sign and digits, or nothing at all for 0. */
  function ParseNumeral(t: string): (r: Option<int>)
    ensures r.Some? <==> IsIntegerNumeral(t)
    ensures AllDigits(t) ==> r == Some(ParseDecimal(t))
    ensures SignedDigits(t, '+') ==> r == Some(ParseDecimal(t[1..]))
    ensures SignedDigits(t, '-') ==> r == Some(0 - ParseDecimal(t[1..]))
    ensures r.Some? ==> forall k :: 0 <= k < |t| ==> IsDigit(t[k]) || t[k] == '+' || t[k] == '-'
  {
    if t == "" then Some(0)
    else if t[0] == '+' || t[0] == '-' then
      if |t| > 1 && AllDigits(t[1..]) then
        assert forall k :: 0 < k < |t| ==> t[k] == t[1..][k - 1];
        var magnitude: int := ParseDecimal(t[1..]);
        Some(if t[0] == '-' then -magnitude else magnitude)
      else None
    else if AllDigits(t) then Some(ParseDecimal(t))
    else None
  }

  lemma TrimOfDigits(s: string)
    ensures AllDigits(s) ==> Trim(s) == s
  {
    if AllDigits(s) {
      DigitsAreNotWhitespace(s);
      TrimPadded("", s, "");
      assert "" + s + "" == s;
    }
  }

  lemma TrimOfBlank(s: string)
    ensures (forall k :: 0 <= k < |s| ==> IsWhitespace(s[k])) ==> Trim(s) == ""
  {
    if forall k :: 0 <= k < |s| ==> IsWhitespace(s[k]) {
      TrimPadded(s, "", "");
      assert s + "" + "" == s;
    }
  }

  lemma DigitsAreNotWhitespace(s: string)
    requires AllDigits(s)
    ensures s == "" || (!IsWhitespace(s[0]) && !IsWhitespace(s[|s| - 1]))
  {
  }

  /** A numeral `String(n)` writes neither starts nor ends with white space. */
  lemma NumeralEdges(n: int)
    ensures var numeral := IntToDecimal(n);
      !IsWhitespace(numeral[0]) && !IsWhitespace(numeral[|numeral| - 1])
  {
    var numeral := IntToDecimal(n);
    if n >= 0 {
      DigitsAreNotWhitespace(numeral);
    } else {
      DigitsAreNotWhitespace(numeral[1..]);
      assert numeral[|numeral| - 1] == numeral[1..][|numeral| - 2];
    }
  }

  lemma ParseNumeralOfNumeral(n: int)
    ensures ParseNumeral(IntToDecimal(n)) == Some(n)
  {
  }

  /** `Number` reads back the numeral `String(n)` writes, whatever white space surrounds it. */
  lemma NumeralRoundTrip(lead: string, n: int, trail: string)
    requires forall k :: 0 <= k < |lead| ==> IsWhitespace(lead[k])
    requires forall k :: 0 <= k < |trail| ==> IsWhitespace(trail[k])
    ensures StringToNumber(lead + IntToDecimal(n) + trail) == Some(n)
  {
    NumeralEdges(n);
    TrimPadded(lead, IntToDecimal(n), trail);
    ParseNumeralOfNumeral(n);
  }

  /** A leading plus sign is accepted. */
  lemma PlusSignedNumeral(n: nat)
    ensures StringToNumber("+" + NatToDecimal(n)) == Some(n)
  {
    var digits := NatToDecimal(n);
    var numeral := "+" + digits;
    DigitsAreNotWhitespace(digits);
    assert numeral[|numeral| - 1] == digits[|digits| - 1];
    assert numeral[0] == '+' && !IsWhitespace('+');
    TrimPadded("", numeral, "");
    assert "" + numeral + "" == numeral;
    assert numeral[1..] == digits;
    ParseDecimalOfNatToDecimal(n);
  }

  /** A sign anywhere but in front of the digits makes the string NaN. */
  lemma MisplacedSignIsNaN()
    ensures StringToNumber("1-2") == None
  {
    assert !IsWhitespace('1') && !IsWhitespace('2');
    TrimPadded("", "1-2", "");
    assert "" + "1-2" + "" == "1-2";
    assert !IsDigit("1-2"[1]);
  }

  /** A sign with no digits after it is NaN. */
  lemma BareSigns()
    ensures StringToNumber("+") == None && StringToNumber("-") == None
  {
    assert !IsWhitespace('+') && !IsWhitespace('-');
    TrimPadded("", "+", "");
    assert "" + "+" + "" == "+";
    TrimPadded("", "-", "");
    assert "" + "-" + "" == "-";
  }

  /** The number the operator `>` compares when a value meets a number; None stands for NaN. */
  function LooseNumber(v: Value): Option<int>
  {
    match v
    case JNull => Some(0)
    case JBool(b) => Some(if b then 1 else 0)
    case JNum(n) => Some(n)
    case JStr(s) => StringToNumber(s)
    case JArr(_) => StringToNumber(TemplateText(v))
    case JObj(_) => None
  }

  /**
   * The loose comparison `v > 1`; any comparison with NaN is false. A value greater than one is
   * truthy, and for a number the comparison is the plain one.
   */
  function GreaterThanOne(v: Value): (r: bool)
    ensures r ==> Truthy(v)
    ensures v.JNum? ==> (r <==> v.n > 1)
    ensures v.JNull? || v.JBool? || v.JObj? ==> !r
  {
    var n := LooseNumber(v);
    n.Some? && n.value > 1
  }

  /** `Number(String(n)) == n`: the numeral an integer is written as reads back as that integer. */
  lemma StringToNumberOfNumeral(n: int)
    ensures StringToNumber(IntToDecimal(n)) == Some(n)
  {
    var numeral := IntToDecimal(n);
    NumeralEdges(n);
    TrimPadded("", numeral, "");
    assert "" + numeral + "" == numeral;
    assert Trim(numeral) == numeral;
    ParseNumeralOfNumeral(n);
  }

  lemma GreaterThanOneOfNumber(n: int)
    ensures GreaterThanOne(JNum(n)) <==> n > 1
    ensures GreaterThanOne(JStr(IntToDecimal(n))) <==> n > 1
  {
    StringToNumberOfNumeral(n);
    LooseNumberOfString(IntToDecimal(n));
  }

  lemma LooseNumberOfString(s: string)
    ensures LooseNumber(JStr(s)) == StringToNumber(s)
  {
  }

  /**
   * The text React shows for a value placed as a child in JSX: null and booleans show nothing,
   * numbers and strings show their text, arrays show their elements one after the other. A plain
   * object is not a valid child and makes rendering throw (None).
   */
  function ChildText(v: Value): (r: Option<string>)
    ensures v.JStr? || v.JNum? ==> r == Some(TemplateText(v))
    ensures v.JNull? || v.JBool? ==> r == Some("")
    ensures !v.JArr? ==> (r.None? <==> v.JObj?)
  {
    match v
    case JNull => Some("")
    case JBool(_) => Some("")
    case JNum(n) => Some(IntToDecimal(n))
    case JStr(s) => Some(s)
    case JArr(items) => ChildrenText(items)
    case JObj(_) => None
  }

  function ChildrenText(items: seq<Value>): Option<string>
  {
    if items == [] then Some("")
    else
      var first := ChildText(items[0]);
      var rest := ChildrenText(items[1..]);
      if first.Some? && rest.Some? then Some(first.value + rest.value) else None
  }

  /** A child shows a text exactly when no plain object occurs in it. */
  predicate HasObject(v: Value)
  {
    match v
    case JObj(_) => true
    case JArr(items) => exists i :: 0 <= i < |items| && HasObject(items[i])
    case _ => false
  }

  lemma {:induction false} ChildTextFailsOnlyOnObjects(v: Value)
    ensures ChildText(v).None? <==> HasObject(v)
    ensures !v.JArr? && !HasObject(v) ==> ChildText(v) == Some(if v.JNull? || v.JBool? then "" else TemplateText(v))
    decreases v, 1
  {
    if v.JArr? {
      ChildrenTextFailsOnlyOnObjects(v.items);
    }
  }

  lemma {:induction false} ChildrenTextFailsOnlyOnObjects(items: seq<Value>)
    ensures ChildrenText(items).None? <==> exists i :: 0 <= i < |items| && HasObject(items[i])
    decreases items, 0
  {
    if items != [] {
      ChildTextFailsOnlyOnObjects(items[0]);
      ChildrenTextFailsOnlyOnObjects(items[1..]);
      if ChildText(items[0]).Some? && ChildrenText(items[1..]).None? {
        var i :| 0 <= i < |items[1..]| && HasObject(items[1..][i]);
        assert HasObject(items[i + 1]);
      }
      if ChildrenText(items).Some? {
        forall i | 0 <= i < |items| ensures !HasObject(items[i]) {
          if i > 0 {
            assert items[i] == items[1..][i - 1];
          }
        }
      }
    }
  }
}
