/** Option and Result, for values that may be missing and operations that may fail. */
module Wrappers {
  datatype Option<+T> = None | Some(value: T)

  datatype Result<+T, +E> = Success(value: T) | Failure(error: E)

  datatype Outcome<+E> = Pass | Fail(error: E)
}

/**
 The PHP runtime behaviour the feed builder relies on: loosely typed values,
 `array_get` with a fallback, string conversion, `htmlspecialchars` and a
 decoder that undoes it, integer strings and `intval`, and truthiness. The
 semantics are those of PHP 8.1 or later on a 64-bit build.
 */
module Php {
  import opened Wrappers

  /** A PHP value as it reaches the feed builder. Array keys are kept as
      strings (an integer key `0` appears as "0"); entries keep their order. */
  datatype Value =
    | Null
    | Bool(b: bool)
    | Int(i: int)
    | Str(s: string)
    | Arr(entries: seq<(string, Value)>)

  /** An associative array indexed by plain (dot-free) keys. */
  type Record = map<string, Value>

  /** The exceptions that abort a feed operation. */
  datatype FeedError =
    | InvalidDate(text: string)   // `new DateTime(text)` threw
    | NonStringCategory           // an array reached `setAttribute("text", ...)`

  /** `array_get($data, $key, $default)` for a key without dots. */
  function ArrayGet(data: Record, key: string, default: Value): Value
  {
    if key in data then data[key] else default
  }

  /** PHP's `(string)` conversion of a scalar. */
  function StringOf(v: Value): string
    requires !v.Arr?
  {
    match v
    case Null => ""
    case Bool(b) => if b then "1" else ""
    case Int(i) => IntToDecimal(i)
    case Str(s) => s
  }

  // ---------------------------------------------------------------------
  // htmlspecialchars with ENT_QUOTES (the default since PHP 8.1), and a left inverse

  /** The characters `htmlspecialchars` replaces by an entity. */
  predicate IsSpecial(c: char)
  {
    c == '&' || c == '"' || c == '\'' || c == '<' || c == '>'
  }

  function EscapeChar(c: char): string
  {
    match c
    case '&' => "&amp;"
    case '"' => "&quot;"
    case '\'' => "&#039;"
    case '<' => "&lt;"
    case '>' => "&gt;"
    case _ => [c]
  }

  /** `htmlspecialchars($s)`: each special character replaced by its entity. */
  function Escape(s: string): string
  {
    if s == [] then [] else EscapeChar(s[0]) + Escape(s[1..])
  }

  /** The characters that would end a text node or an attribute value. */
  predicate IsMarkup(c: char)
  {
    c == '"' || c == '\'' || c == '<' || c == '>'
  }

  predicate NoMarkup(s: string)
  {
    forall k :: 0 <= k < |s| ==> !IsMarkup(s[k])
  }

  lemma NoMarkupConcat(a: string, b: string)
    requires NoMarkup(a) && NoMarkup(b)
    ensures NoMarkup(a + b)
  {
    assert forall k :: |a| <= k < |a + b| ==> (a + b)[k] == b[k - |a|];
  }

  lemma EscapeCharNoMarkup(c: char)
    ensures NoMarkup(EscapeChar(c))
  {
  }

  /** The escaped text holds no raw markup character. */
  lemma {:induction false} EscapeNoMarkup(s: string)
    ensures NoMarkup(Escape(s))
  {
    if s != [] {
      EscapeNoMarkup(s[1..]);
      EscapeCharNoMarkup(s[0]);
      NoMarkupConcat(EscapeChar(s[0]), Escape(s[1..]));
    }
  }

  /** Text without special characters is left as it is. */
  lemma {:induction false} EscapePlain(s: string)
    requires forall k :: 0 <= k < |s| ==> !IsSpecial(s[k])
    ensures Escape(s) == s
  {
    if s != [] {
      EscapePlain(s[1..]);
    }
  }

  /** The first character the text `s` stands for, and how many characters
      of `s` it takes; only the five entities `Escape` writes are decoded. */
  function DecodeOne(s: string): (r: (char, nat))
    requires s != []
    ensures 1 <= r.1 <= |s|
  {
    if s[0] != '&' then (s[0], 1)
    else if "&amp;" <= s then ('&', 5)
    else if "&quot;" <= s then ('"', 6)
    else if "&#039;" <= s then ('\'', 6)
    else if "&lt;" <= s then ('<', 4)
    else if "&gt;" <= s then ('>', 4)
    else ('&', 1)
  }

  /** A left inverse of `Escape`, used to state that escaping loses nothing.
      It is not PHP's `htmlspecialchars_decode`, which also reads `&#39;`,
      `&#x27;`, `&#34;` and other numeric forms. */
  function Unescape(s: string): string
    decreases |s|
  {
    if s == [] then [] else var (c, n) := DecodeOne(s); [c] + Unescape(s[n..])
  }

  lemma DecodeOneEscapeChar(c: char, rest: string)
    ensures DecodeOne(EscapeChar(c) + rest) == (c, |EscapeChar(c)|)
  {
    var e := EscapeChar(c) + rest;
    assert EscapeChar(c) <= e;
    if c == '"' || c == '\'' {
      assert e[1] != 'a';
    } else if c == '<' || c == '>' {
      assert e[1] != 'a' && e[1] != 'q' && e[1] != '#';
      assert c == '>' ==> e[1] != 'l';
    }
  }

  lemma UnescapeEscapeChar(c: char, rest: string)
    ensures Unescape(EscapeChar(c) + rest) == [c] + Unescape(rest)
  {
    var e := EscapeChar(c) + rest;
    DecodeOneEscapeChar(c, rest);
    assert e[|EscapeChar(c)|..] == rest;
  }

  /** Escaping loses nothing: decoding gives the original text back. */
  lemma {:induction false} UnescapeEscape(s: string)
    ensures Unescape(Escape(s)) == s
  {
    if s != [] {
      UnescapeEscape(s[1..]);
      UnescapeEscapeChar(s[0], Escape(s[1..]));
    }
  }

  /** `htmlspecialchars($v)` for a scalar: PHP converts it to a string first
      (`null` and `false` give ""), then escapes. */
  function HtmlSpecialChars(v: Value): string
    requires !v.Arr?
  {
    Escape(StringOf(v))
  }

  /** Decoding `htmlspecialchars($v)` gives PHP's string form of `v`; null
      gives "". */
  lemma HtmlSpecialCharsDecodes(v: Value)
    requires !v.Arr?
    ensures Unescape(HtmlSpecialChars(v)) == StringOf(v)
    ensures v.Null? ==> HtmlSpecialChars(v) == ""
  {
    UnescapeEscape(StringOf(v));
  }

  // ---------------------------------------------------------------------
  // Integer strings

  predicate IsDigit(c: char)
  {
    '0' <= c <= '9'
  }

  function DigitChar(d: nat): char
    requires d < 10
  {
    (('0' as int) + d) as char
  }

  /** The decimal digits of `n`, without leading zeros. */
  function Digits(n: nat): (r: string)
    ensures |r| >= 1 && forall k :: 0 <= k < |r| ==> IsDigit(r[k])
    decreases n
  {
    if n < 10 then [DigitChar(n)] else Digits(n / 10) + [DigitChar(n % 10)]
  }

  /** PHP's string form of an integer. */
  function IntToDecimal(i: int): string
  {
    if i < 0 then "-" + Digits(-i) else Digits(i)
  }

  predicate AllDigits(s: string)
  {
    forall k :: 0 <= k < |s| ==> IsDigit(s[k])
  }

  function DigitsValue(s: string): nat
    requires AllDigits(s)
    decreases |s|
  {
    if s == [] then 0
    else DigitsValue(s[..|s| - 1]) * 10 + ((s[|s| - 1] as int) - ('0' as int))
  }

  /** The integer an integer string denotes, however long, or None when the
      string is not an optionally signed run of decimal digits. */
  function ParseDecimal(s: string): Option<int>
  {
    if |s| > 0 && AllDigits(s) then Some(DigitsValue(s))
    else if |s| > 1 && s[0] == '-' && AllDigits(s[1..]) then Some(-(DigitsValue(s[1..]) as int))
    else None
  }

  lemma {:induction false} DigitsValueOfDigits(n: nat)
    ensures DigitsValue(Digits(n)) == n
    decreases n
  {
    if n >= 10 {
      DigitsValueOfDigits(n / 10);
      var d := Digits(n / 10) + [DigitChar(n % 10)];
      assert d[..|d| - 1] == Digits(n / 10);
    }
  }

  /** `intval((string) $i) == $i`: an integer survives the trip through its
      string form. */
  lemma ParseIntToDecimal(i: int)
    ensures ParseDecimal(IntToDecimal(i)) == Some(i)
  {
    if i < 0 {
      DigitsValueOfDigits(-i);
      var s := IntToDecimal(i);
      assert s[1..] == Digits(-i);
      assert !IsDigit(s[0]);
    } else {
      DigitsValueOfDigits(i);
    }
  }

  /** PHP_INT_MAX on a 64-bit build. */
  const IntMax: int := 0x7FFF_FFFF_FFFF_FFFF

  /** The range of a PHP integer. */
  predicate IsInt(i: int)
  {
    -IntMax - 1 <= i <= IntMax
  }

  /** `intval` of an integer string: the number it denotes, saturated to
      the range of a PHP integer. */
  function IntVal(n: int): int
  {
    if n > IntMax then IntMax else if n < -IntMax - 1 then -IntMax - 1 else n
  }

  /** `intval` always gives a PHP integer, and leaves one unchanged. */
  lemma IntValRange(n: int)
    ensures IsInt(IntVal(n))
    ensures IsInt(n) ==> IntVal(n) == n
  {
  }

  /** Escaping leaves an integer string unchanged. */
  lemma EscapeDecimal(s: string)
    requires ParseDecimal(s).Some?
    ensures Escape(s) == s
  {
    EscapePlain(s);
    assert forall k :: 0 <= k < |s| ==> !IsSpecial(s[k]) by {
      forall k | 0 <= k < |s| ensures !IsSpecial(s[k]) {
        if !AllDigits(s) {
          if k > 0 {
            assert s[k] == s[1..][k - 1];
          }
        }
      }
    }
  }

  /** A PHP value that is an integer (64 bits wide), or converts to an integer
      string of any length, or to "" (null and false). */
  predicate IntegerLike(v: Value)
  {
    match v
    case Null => true
    case Bool(_) => true
    case Int(i) => IsInt(i)
    case Str(s) => ParseDecimal(s).Some?
    case Arr(_) => false
  }

  // ---------------------------------------------------------------------
  // Truthiness and loose comparison of strings

  /** `(bool) $s` for a string, which is also `!empty($s)`. */
  predicate Truthy(s: string)
  {
    s != "" && s != "0"
  }

  /** `$s == null` for a string: null converts to "". */
  predicate LooseNull(s: string)
  {
    s == ""
  }
}

/** The part of PHP's DateTime the feed builder uses. */
module Dates {
  /** A DateTime: an instant (seconds since the epoch) and the UTC offset it
      is displayed with. */
  datatype Timestamp = Timestamp(instant: int, offset: int)

  /** `$a < $b` on two DateTime objects compares the instants only. */
  predicate Earlier(a: Timestamp, b: Timestamp)
  {
    a.instant < b.instant
  }
}
