/** Canonical JSON, and the parser that shows it unambiguous: jcs.go, sections 3.2.2 and 3.2.3 of RFC 8785. */
module Jcs {
  import opened Events
  import opened KeyOrder
  import opened Surrogates

  /** `Refused` stands for what has no canonical form: text that is not valid UTF-8, or a value of a foreign type. */
  datatype Json =
    | Null
    | Bool(value: bool)
    | Number(n: int)
    | Text(s: string)
    | Array(items: seq<Json>)
    | Object(fields: map<string, Json>)
    | Refused

  ghost predicate Canonical(v: Json) {
    match v
    case Array(items) => forall i :: 0 <= i < |items| ==> Canonical(items[i])
    case Object(fields) => forall k :: k in fields ==> Canonical(fields[k])
    case Refused => false
    case _ => true
  }

  // ---------- Decimals ----------

  predicate IsDigit(c: char) { '0' <= c <= '9' }

  function DigitOf(d: nat): (c: char)
    requires d < 10
    ensures IsDigit(c) && c as int - '0' as int == d
  {
    ('0' as int + d) as char
  }

  function Digits(n: nat): (r: string)
    ensures r != "" && forall c :: c in r ==> IsDigit(c)
  {
    if n < 10 then [DigitOf(n)] else Digits(n / 10) + [DigitOf(n % 10)]
  }

  function Decimal(n: int): string {
    if n < 0 then "-" + Digits(-n) else Digits(n)
  }

  /** Reads the digits at the front of `s`. */
  function ParseDigits(s: string, acc: nat): (r: (nat, string))
    ensures |r.1| <= |s|
  {
    if s == "" || !IsDigit(s[0]) then (acc, s) else ParseDigits(s[1..], 10 * acc + (s[0] as int - '0' as int))
  }

  /** What follows a number in canonical text does not continue it. */
  predicate EndsNumber(rest: string) { rest == "" || !IsDigit(rest[0]) }

  lemma {:induction false} DigitsParse(n: nat, rest: string)
    ensures ParseDigits(Digits(n) + rest, 0) == ParseDigits(rest, n)
  {
    if n < 10 {
      assert (Digits(n) + rest)[1..] == rest;
    } else {
      var last := [DigitOf(n % 10)];
      assert Digits(n) + rest == Digits(n / 10) + (last + rest);
      DigitsParse(n / 10, last + rest);
      assert (last + rest)[1..] == rest;
    }
  }

  /** Decimal text without fraction and exponent, as JSON allows it. */
  predicate IsIntegerText(raw: string) {
    var digits := if raw != "" && raw[0] == '-' then raw[1..] else raw;
    && digits != "" && (forall c :: c in digits ==> IsDigit(c))
    && (digits[0] == '0' ==> |digits| == 1)
  }

  function IntegerValue(raw: string): int {
    if raw != "" && raw[0] == '-' then 0 - ParseDigits(raw[1..], 0).0 else ParseDigits(raw, 0).0
  }

  /** Number text without fraction and exponent: the digits are kept, whatever their number. */
  function CanonicalNumber(raw: string): string {
    if raw == "-0" then "0" else raw
  }

  lemma {:induction false} DigitsOfValue(s: string)
    requires s != "" && (forall c :: c in s ==> IsDigit(c)) && (s[0] == '0' ==> |s| == 1)
    ensures ParseDigits(s, 0).1 == "" && Digits(ParseDigits(s, 0).0) == s && (s[0] != '0' ==> ParseDigits(s, 0).0 > 0)
    decreases |s|
  {
    if |s| == 1 {
      assert s[1..] == "" && s[0] in s;
      assert DigitOf(s[0] as int - '0' as int) == s[0];
    } else {
      var most, last := s[..|s| - 1], s[|s| - 1];
      assert s == most + [last];
      DigitsOfValue(most);
      var m, d := ParseDigits(most, 0).0, last as int - '0' as int;
      DigitsParse(m, [last]);
      assert [last][1..] == "";
      assert ParseDigits([last], m) == (10 * m + d, "");
      assert (10 * m + d) / 10 == m && (10 * m + d) % 10 == d;
      assert DigitOf(d) == last;
    }
  }

  /** Every spelling JSON has for an integer becomes the one decimal of its value. */
  lemma {:induction false} CanonicalNumberIsDecimal(raw: string)
    requires IsIntegerText(raw)
    ensures CanonicalNumber(raw) == Decimal(IntegerValue(raw))
  {
    if raw[0] == '-' {
      DigitsOfValue(raw[1..]);
      assert raw == "-" + raw[1..];
      if raw[1] == '0' {
        assert raw == "-0";
      }
    } else {
      DigitsOfValue(raw);
    }
  }

  // ---------- Strings ----------

  const HEX := "0123456789abcdef"

  function EscapeChar(c: char): (r: string)
    ensures r != ""
  {
    if c == '"' then "\\\""
    else if c == '\\' then "\\\\"
    else if c == '\U{0008}' then "\\b"
    else if c == '\t' then "\\t"
    else if c == '\n' then "\\n"
    else if c == '\U{000C}' then "\\f"
    else if c == '\r' then "\\r"
    else if c as int < 0x20 then "\\u00" + [HEX[c as int / 16]] + [HEX[c as int % 16]]
    else [c]
  }

  /** The character that a letter stands for after a backslash. */
  function ShortEscape(letter: char): Option<char> {
    match letter
    case 'b' => Some('\U{0008}')
    case 't' => Some('\t')
    case 'n' => Some('\n')
    case 'f' => Some('\U{000C}')
    case 'r' => Some('\r')
    case '"' => Some('"')
    case '\\' => Some('\\')
    case _ => None
  }

  predicate HasShortEscape(c: char) {
    c in ['"', '\\', '\U{0008}', '\t', '\n', '\U{000C}', '\r']
  }

  /** The short escape where there is one; lower-case hexadecimal for the other control characters; every other
      character as it is: section 3.2.2.2 of RFC 8785. */
  lemma {:induction false} EscapesAreCanonical(c: char)
    ensures var r := EscapeChar(c);
            if HasShortEscape(c) then |r| == 2 && r[0] == '\\' && ShortEscape(r[1]) == Some(c)
            else if c as int >= 0x20 then r == [c]
            else && |r| == 6 && r[..4] == "\\u00" && r[4] in HEX && r[5] in HEX
                 && HexDigit(r[4]) == Some(c as int / 16) && HexDigit(r[5]) == Some(c as int % 16)
  {
    if c as int < 0x20 {
      assert HexDigit(HEX[c as int / 16]) == Some(c as int / 16);
      assert HexDigit(HEX[c as int % 16]) == Some(c as int % 16);
      assert HEX[c as int / 16] in HEX && HEX[c as int % 16] in HEX;
    }
  }

  /** The characters of a string literal from position `i` on, its closing quote, and then `rest`. */
  function StringTo(s: string, i: nat, rest: string): string
    requires i <= |s|
    decreases |s| - i
  {
    if i == |s| then ['"'] + rest else EscapeChar(s[i]) + StringTo(s, i + 1, rest)
  }

  /** Reads one character, escaped or not, of a string literal. */
  function ParseChar(s: string): (r: Option<(char, string)>)
    ensures r.Some? ==> |r.value.1| < |s|
  {
    if s == "" || s[0] == '"' then None
    else if s[0] != '\\' then Some((s[0], s[1..]))
    else if |s| < 2 then None
    else match s[1]
      case '"' => Some(('"', s[2..]))
      case '\\' => Some(('\\', s[2..]))
      case 'b' => Some(('\U{0008}', s[2..]))
      case 't' => Some(('\t', s[2..]))
      case 'n' => Some(('\n', s[2..]))
      case 'f' => Some(('\U{000C}', s[2..]))
      case 'r' => Some(('\r', s[2..]))
      case 'u' =>
        if |s| < 6 || s[2] != '0' || s[3] != '0' then None
        else (match (HexDigit(s[4]), HexDigit(s[5]))
          case (Some(high), Some(low)) => Some(((16 * high + low) as char, s[6..]))
          case _ => None)
      case _ => None
  }

  lemma {:induction false} CharParses(c: char, rest: string)
    ensures ParseChar(EscapeChar(c) + rest) == Some((c, rest))
  {
    var text := EscapeChar(c) + rest;
    if c as int < 0x20 && c !in ['\U{0008}', '\t', '\n', '\U{000C}', '\r'] {
      assert HexDigit(HEX[c as int / 16]) == Some(c as int / 16);
      assert HexDigit(HEX[c as int % 16]) == Some(c as int % 16);
      assert text[6..] == rest;
    } else if |EscapeChar(c)| == 2 {
      assert text[2..] == rest;
    } else {
      assert text[1..] == rest;
    }
  }

  function ParseString(s: string): (r: Option<(string, string)>)
    ensures r.Some? ==> |r.value.1| < |s|
    decreases |s|
  {
    if s == "" then None
    else if s[0] == '"' then Some(("", s[1..]))
    else
      match ParseChar(s)
      case None => None
      case Some((c, after)) =>
        match ParseString(after)
        case None => None
        case Some((more, rest)) => Some(([c] + more, rest))
  }

  lemma {:induction false} StringParses(s: string, i: nat, rest: string)
    requires i <= |s|
    ensures ParseString(StringTo(s, i, rest)) == Some((s[i..], rest))
    decreases |s| - i
  {
    if i == |s| {
      assert (['"'] + rest)[1..] == rest;
    } else {
      CharParses(s[i], StringTo(s, i + 1, rest));
      StringParses(s, i + 1, rest);
      assert s[i..] == [s[i]] + s[i + 1..];
    }
  }

  // ---------- Values ----------

  /** The canonical text of `v`, followed by `rest`. */
  ghost function PrintTo(v: Json, rest: string): string
    requires Canonical(v)
    decreases v, 1
  {
    match v
    case Null => "null" + rest
    case Bool(b) => (if b then "true" else "false") + rest
    case Number(n) => Decimal(n) + rest
    case Text(s) => ['"'] + StringTo(s, 0, rest)
    case Array(items) => ['['] + ItemsTo(v, 0, rest)
    case Object(fields) => ['{'] + FieldsTo(v, Listing(fields.Keys), 0, rest)
  }

  /** All but the first of a list are preceded by a comma. */
  function Separated(first: bool, text: string): string {
    if first then text else [','] + text
  }

  ghost function ItemsTo(v: Json, i: nat, rest: string): string
    requires Canonical(v) && v.Array? && i <= |v.items|
    decreases v, 0, |v.items| - i
  {
    if i == |v.items| then [']'] + rest
    else Separated(i == 0, PrintTo(v.items[i], ItemsTo(v, i + 1, rest)))
  }

  /** One field: its key, a colon and its value. */
  ghost function FieldTo(v: Json, k: string, rest: string): string
    requires Canonical(v) && v.Object? && k in v.fields
    decreases v, 0, 0
  {
    ['"'] + StringTo(k, 0, [':'] + PrintTo(v.fields[k], rest))
  }

  ghost function FieldsTo(v: Json, keys: seq<string>, i: nat, rest: string): string
    requires Canonical(v) && v.Object? && i <= |keys| && forall k :: k in keys ==> k in v.fields
    decreases v, 0, |keys| - i + 1
  {
    if i == |keys| then ['}'] + rest
    else Separated(i == 0, FieldTo(v, keys[i], FieldsTo(v, keys, i + 1, rest)))
  }

  ghost function Print(v: Json): string
    requires Canonical(v)
  {
    PrintTo(v, "")
  }

  // ---------- The parser ----------

  function ParseValue(s: string): (r: Option<(Json, string)>)
    ensures r.Some? ==> |r.value.1| < |s|
    decreases |s|, 1
  {
    if s == "" then None
    else match s[0]
      case 'n' => ParseWord(s, "null", Null)
      case 't' => ParseWord(s, "true", Bool(true))
      case 'f' => ParseWord(s, "false", Bool(false))
      case '"' => (match ParseString(s[1..])
        case None => None
        case Some((text, rest)) => Some((Text(text), rest)))
      case '[' => (match ParseItems(s[1..], true)
        case None => None
        case Some((items, rest)) => Some((Array(items), rest)))
      case '{' => (match ParseFields(s[1..], true)
        case None => None
        case Some((fields, rest)) => Some((Object(fields), rest)))
      case _ => ParseNumber(s)
  }

  function ParseWord(s: string, word: string, v: Json): (r: Option<(Json, string)>)
    requires word != ""
    ensures r.Some? ==> |r.value.1| < |s|
  {
    if |word| <= |s| && s[..|word|] == word then Some((v, s[|word|..])) else None
  }

  function ParseNumber(s: string): (r: Option<(Json, string)>)
    ensures r.Some? ==> |r.value.1| < |s|
  {
    var negative := s != "" && s[0] == '-';
    var digits := if negative then s[1..] else s;
    var (n, rest) := ParseDigits(digits, 0);
    if |rest| == |digits| then None else Some((Number(if negative then 0 - n else n), rest))
  }

  /** What is left of an array after its bracket, or after one of its items. */
  function ParseItems(s: string, first: bool): (r: Option<(seq<Json>, string)>)
    ensures r.Some? ==> |r.value.1| < |s|
    decreases |s|, 2
  {
    if s == "" then None
    else if s[0] == ']' then Some(([], s[1..]))
    else if !first && s[0] != ',' then None
    else
      match ParseValue(if first then s else s[1..])
      case None => None
      case Some((item, after)) =>
        match ParseItems(after, false)
        case None => None
        case Some((items, rest)) => Some(([item] + items, rest))
  }

  function ParseField(s: string): (r: Option<(string, Json, string)>)
    ensures r.Some? ==> |r.value.2| < |s|
    decreases |s|, 0
  {
    if s == "" || s[0] != '"' then None
    else
      match ParseString(s[1..])
      case None => None
      case Some((key, after)) =>
        if after == "" || after[0] != ':' then None
        else
          match ParseValue(after[1..])
          case None => None
          case Some((value, rest)) => Some((key, value, rest))
  }

  function ParseFields(s: string, first: bool): (r: Option<(map<string, Json>, string)>)
    ensures r.Some? ==> |r.value.1| < |s|
    decreases |s|, 2
  {
    if s == "" then None
    else if s[0] == '}' then Some((map[], s[1..]))
    else if !first && s[0] != ',' then None
    else
      match ParseField(if first then s else s[1..])
      case None => None
      case Some((key, value, after)) =>
        match ParseFields(after, false)
        case None => None
        case Some((fields, rest)) => Some((fields[key := value], rest))
  }

  // ---------- The parser recovers what was printed ----------

  lemma {:induction false} NumberParses(n: int, rest: string)
    requires EndsNumber(rest)
    ensures ParseNumber(Decimal(n) + rest) == Some((Number(n), rest))
    ensures (Decimal(n) + rest)[0] == '-' || IsDigit((Decimal(n) + rest)[0])
  {
    var m := if n < 0 then -n else n;
    DigitsParse(m, rest);
    assert Digits(m)[0] in Digits(m);
    assert (Digits(m) + rest)[0] == Digits(m)[0];
    if n < 0 {
      assert Decimal(n) + rest == ['-'] + (Digits(m) + rest);
    }
  }

  lemma {:induction false} WordParses(word: string, rest: string)
    requires word in {"null", "true", "false"}
    ensures ParseValue(word + rest) == Some((if word == "null" then Null else Bool(word == "true"), rest))
  {
    var s := word + rest;
    assert s[0] == word[0] && s[..|word|] == word && s[|word|..] == rest;
  }

  lemma {:induction false} TextParses(text: string, rest: string)
    ensures ParseValue(['"'] + StringTo(text, 0, rest)) == Some((Text(text), rest))
  {
    var s := ['"'] + StringTo(text, 0, rest);
    StringParses(text, 0, rest);
    assert s[1..] == StringTo(text, 0, rest) && text[0..] == text;
  }

  lemma {:induction false} ArrayParses(inner: string, items: seq<Json>, rest: string)
    requires ParseItems(inner, true) == Some((items, rest))
    ensures ParseValue(['['] + inner) == Some((Array(items), rest))
  {
    assert (['['] + inner)[1..] == inner;
  }

  lemma {:induction false} ObjectParses(inner: string, fields: map<string, Json>, rest: string)
    requires ParseFields(inner, true) == Some((fields, rest))
    ensures ParseValue(['{'] + inner) == Some((Object(fields), rest))
  {
    assert (['{'] + inner)[1..] == inner;
  }

  /** A value printed before `rest` is read back, with `rest` left over. */
  lemma {:induction false} ParsePrint(v: Json, rest: string)
    requires Canonical(v) && EndsNumber(rest)
    ensures ParseValue(PrintTo(v, rest)) == Some((v, rest))
    decreases v, 1
  {
    match v
    case Null => WordParses("null", rest);
    case Bool(b) => WordParses(if b then "true" else "false", rest);
    case Number(n) => NumberIsValue(n, rest);
    case Text(text) => TextParses(text, rest);
    case Array(items) =>
      ParseItemsTo(v, 0, rest);
      assert items[0..] == items;
      ArrayParses(ItemsTo(v, 0, rest), items, rest);
    case Object(fields) =>
      var keys := Listing(fields.Keys);
      ParseFieldsTo(v, keys, 0, rest);
      assert Rest(v, keys, 0) == fields;
      ObjectParses(FieldsTo(v, keys, 0, rest), fields, rest);
  }

  lemma {:induction false} NumberIsValue(n: int, rest: string)
    requires EndsNumber(rest)
    ensures ParseValue(Decimal(n) + rest) == Some((Number(n), rest))
  {
    NumberParses(n, rest);
  }

  /** No value begins with a bracket that closes or with a comma. */
  lemma {:induction false} FirstOfValue(v: Json, rest: string)
    requires Canonical(v)
    ensures PrintTo(v, rest) != "" && PrintTo(v, rest)[0] !in {']', '}', ','}
  {
    if v.Number? {
      var m := if v.n < 0 then -v.n else v.n;
      assert Digits(m)[0] in Digits(m);
    }
  }

  predicate Leads(text: string, stop: char) {
    text != "" && text[0] != stop
  }

  lemma {:induction false} ItemsEnd(rest: string, first: bool)
    ensures ParseItems([']'] + rest, first) == Some(([], rest))
  {
    assert ([']'] + rest)[1..] == rest;
  }

  lemma {:induction false} ItemsParse(text: string, first: bool, item: Json, after: string, items: seq<Json>,
                                      rest: string)
    requires Leads(text, ']')
    requires ParseValue(text) == Some((item, after)) && ParseItems(after, false) == Some((items, rest))
    ensures ParseItems(Separated(first, text), first) == Some(([item] + items, rest))
  {
    assert ([','] + text)[1..] == text;
  }

  lemma {:induction false} ParseItemsTo(v: Json, i: nat, rest: string)
    requires Canonical(v) && v.Array? && i <= |v.items|
    ensures ParseItems(ItemsTo(v, i, rest), i == 0) == Some((v.items[i..], rest))
    ensures i > 0 ==> EndsNumber(ItemsTo(v, i, rest))
    decreases v, 0, |v.items| - i
  {
    if i == |v.items| {
      ItemsEnd(rest, i == 0);
      assert v.items[i..] == [];
    } else {
      var n := i + 1;
      var after := ItemsTo(v, n, rest);
      var text := PrintTo(v.items[i], after);
      ParseItemsTo(v, n, rest);
      ParsePrint(v.items[i], after);
      FirstOfValue(v.items[i], after);
      ItemsParse(text, i == 0, v.items[i], after, v.items[n..], rest);
      assert v.items[i..] == [v.items[i]] + v.items[n..];
    }
  }

  /** The fields whose keys are listed from `i` on. */
  ghost function Rest(v: Json, keys: seq<string>, i: nat): map<string, Json>
    requires v.Object? && i <= |keys| && forall k :: k in keys ==> k in v.fields
  {
    map k | k in keys[i..] :: v.fields[k]
  }

  lemma {:induction false} ParseFieldTo(v: Json, k: string, rest: string)
    requires Canonical(v) && v.Object? && k in v.fields && EndsNumber(rest)
    ensures ParseField(FieldTo(v, k, rest)) == Some((k, v.fields[k], rest))
    ensures Leads(FieldTo(v, k, rest), '}')
    decreases v, 0, 0
  {
    var value := PrintTo(v.fields[k], rest);
    ParsePrint(v.fields[k], rest);
    StringParses(k, 0, [':'] + value);
    assert FieldTo(v, k, rest)[1..] == StringTo(k, 0, [':'] + value);
    assert k[0..] == k && ([':'] + value)[1..] == value;
  }

  lemma {:induction false} FieldsEnd(rest: string, first: bool)
    ensures ParseFields(['}'] + rest, first) == Some((map[], rest))
  {
    assert (['}'] + rest)[1..] == rest;
  }

  lemma {:induction false} FieldsParse(text: string, first: bool, k: string, value: Json, after: string,
                                       fields: map<string, Json>, rest: string)
    requires Leads(text, '}')
    requires ParseField(text) == Some((k, value, after)) && ParseFields(after, false) == Some((fields, rest))
    ensures ParseFields(Separated(first, text), first) == Some((fields[k := value], rest))
  {
    assert ([','] + text)[1..] == text;
  }

  lemma {:induction false} ParseFieldsTo(v: Json, keys: seq<string>, i: nat, rest: string)
    requires Canonical(v) && v.Object? && i <= |keys| && forall k :: k in keys ==> k in v.fields
    ensures ParseFields(FieldsTo(v, keys, i, rest), i == 0) == Some((Rest(v, keys, i), rest))
    ensures i > 0 ==> EndsNumber(FieldsTo(v, keys, i, rest))
    decreases v, 0, |keys| - i + 1
  {
    if i == |keys| {
      FieldsEnd(rest, i == 0);
      assert Rest(v, keys, i) == map[];
    } else {
      var n := i + 1;
      var after := FieldsTo(v, keys, n, rest);
      var text := FieldTo(v, keys[i], after);
      ParseFieldsTo(v, keys, n, rest);
      ParseFieldTo(v, keys[i], after);
      RestOneMore(v, keys, i);
      assert ParseFields(Separated(i == 0, text), i == 0) == Some((Rest(v, keys, i), rest)) by {
        FieldsParse(text, i == 0, keys[i], v.fields[keys[i]], after, Rest(v, keys, n), rest);
      }
    }
  }

  lemma {:induction false} RestOneMore(v: Json, keys: seq<string>, i: nat)
    requires v.Object? && i < |keys| && forall k :: k in keys ==> k in v.fields
    ensures Rest(v, keys, i) == Rest(v, keys, i + 1)[keys[i] := v.fields[keys[i]]]
  {
    assert keys[i..] == [keys[i]] + keys[i + 1..];
  }

  /** Canonical text is unambiguous: equal texts mean equal values, wherever in a longer text they stand. */
  lemma {:induction false} PrintIsInjective(v: Json, w: Json, r: string, s: string)
    requires Canonical(v) && Canonical(w) && EndsNumber(r) && EndsNumber(s)
    requires PrintTo(v, r) == PrintTo(w, s)
    ensures v == w && r == s
  {
    ParsePrint(v, r);
    ParsePrint(w, s);
  }

  // ---------- The writer ----------

  lemma {:induction false} Associate(a: string, b: string, c: string)
    ensures (a + b) + c == a + (b + c)
  {}

  /** A text under construction. The ghost argument of each writing method is what is still to be written after it. */
  class Buffer {
    var text: string

    constructor ()
      ensures text == ""
    {
      text := "";
    }

    method Write(s: string, ghost rest: string)
      modifies this
      ensures text + rest == old(text) + (s + rest)
    {
      Associate(text, s, rest);
      text := text + s;
    }
  }

  method WriteString(out: Buffer, s: string, ghost rest: string)
    modifies out
    ensures out.text + rest == old(out.text) + (['"'] + StringTo(s, 0, rest))
  {
    out.Write(['"'], StringTo(s, 0, rest));
    ghost var whole := out.text + StringTo(s, 0, rest);
    for i := 0 to |s|
      invariant out.text + StringTo(s, i, rest) == whole
    {
      out.Write(EscapeChar(s[i]), StringTo(s, i + 1, rest));
    }
    out.Write(['"'], rest);
  }

  /** Writes the canonical text, unless some part of the value has none. */
  method WriteJcs(out: Buffer, v: Json, ghost rest: string) returns (ok: bool)
    modifies out
    ensures ok <==> Canonical(v)
    ensures ok ==> out.text + rest == old(out.text) + PrintTo(v, rest)
    decreases v, 1
  {
    if v.Array? {
      ok := WriteArray(out, v, rest);
    } else if v.Object? {
      ok := WriteObject(out, v, rest);
    } else {
      ok := WriteLeaf(out, v, rest);
    }
  }

  method WriteLeaf(out: Buffer, v: Json, ghost rest: string) returns (ok: bool)
    requires !v.Array? && !v.Object?
    modifies out
    ensures ok <==> Canonical(v)
    ensures ok ==> out.text + rest == old(out.text) + PrintTo(v, rest)
    decreases v, 0
  {
    match v {
      case Null => out.Write("null", rest);
      case Bool(value) => out.Write(if value then "true" else "false", rest);
      case Number(n) => out.Write(Decimal(n), rest);
      case Text(s) => WriteString(out, s, rest);
      case Refused => return false;
    }
    return true;
  }

  method WriteArray(out: Buffer, v: Json, ghost rest: string) returns (ok: bool)
    requires v.Array?
    modifies out
    ensures ok <==> Canonical(v)
    ensures ok ==> out.text + rest == old(out.text) + PrintTo(v, rest)
    decreases v, 0
  {
    ghost var canonical := Canonical(v);
    out.Write(['['], if canonical then ItemsTo(v, 0, rest) else "");
    ghost var whole := out.text + if canonical then ItemsTo(v, 0, rest) else "";
    for i := 0 to |v.items|
      invariant canonical ==> out.text + ItemsTo(v, i, rest) == whole
      invariant forall k :: 0 <= k < i ==> Canonical(v.items[k])
    {
      ghost var after := if canonical then ItemsTo(v, i + 1, rest) else "";
      if i > 0 {
        out.Write([','], if canonical then PrintTo(v.items[i], after) else "");
      }
      var written := WriteJcs(out, v.items[i], after);
      if !written {
        return false;
      }
    }
    out.Write([']'], rest);
    return true;
  }

  method WriteObject(out: Buffer, v: Json, ghost rest: string) returns (ok: bool)
    requires v.Object?
    modifies out
    ensures ok <==> Canonical(v)
    ensures ok ==> out.text + rest == old(out.text) + PrintTo(v, rest)
    decreases v, 0
  {
    ghost var canonical := Canonical(v);
    var keys := SortedKeys(v.fields.Keys);
    SortedListingIsUnique(keys, Listing(v.fields.Keys));
    out.Write(['{'], if canonical then FieldsTo(v, keys, 0, rest) else "");
    ghost var whole := out.text + if canonical then FieldsTo(v, keys, 0, rest) else "";
    for i := 0 to |keys|
      invariant canonical ==> out.text + FieldsTo(v, keys, i, rest) == whole
      invariant forall k :: 0 <= k < i ==> Canonical(v.fields[keys[k]])
    {
      ghost var after := if canonical then FieldsTo(v, keys, i + 1, rest) else "";
      if i > 0 {
        out.Write([','], if canonical then FieldTo(v, keys[i], after) else "");
      }
      var written := WriteField(out, v, keys[i], after);
      if !written {
        return false;
      }
    }
    out.Write(['}'], rest);
    return true;
  }

  method WriteField(out: Buffer, v: Json, k: string, ghost rest: string) returns (ok: bool)
    requires v.Object? && k in v.fields
    modifies out
    ensures ok <==> Canonical(v.fields[k])
    ensures Canonical(v) ==> out.text + rest == old(out.text) + FieldTo(v, k, rest)
    decreases v, 0, 0
  {
    ghost var value := if Canonical(v.fields[k]) then PrintTo(v.fields[k], rest) else "";
    WriteString(out, k, [':'] + value);
    out.Write([':'], value);
    ok := WriteJcs(out, v.fields[k], rest);
  }

  /** What is left of an object without some top-level keys; other values are left alone. */
  function Without(v: Json, keys: set<string>): (r: Json)
    ensures r.Object? <==> v.Object?
    ensures if v.Object? then forall k :: k in r.fields <==> k in v.fields && k !in keys else r == v
    ensures v.Object? ==> forall k :: k in r.fields ==> r.fields[k] == v.fields[k]
  {
    if v.Object? then Object(v.fields - keys) else v
  }

  method Canonicalize(v: Json, excludeKeys: set<string>) returns (r: Option<string>)
    ensures r.Some? <==> Canonical(Without(v, excludeKeys))
    ensures r.Some? ==> r.value == Print(Without(v, excludeKeys))
  {
    var out := new Buffer();
    var ok := WriteJcs(out, Without(v, excludeKeys), "");
    assert out.text + "" == out.text;
    return if ok then Some(out.text) else None;
  }

  /** Two values are given the same canonical text exactly when they are equal, excluded keys aside. */
  lemma {:induction false} SameTextIffSameValue(v: Json, w: Json, excludeKeys: set<string>)
    requires Canonical(Without(v, excludeKeys)) && Canonical(Without(w, excludeKeys))
    ensures Print(Without(v, excludeKeys)) == Print(Without(w, excludeKeys)) <==>
            Without(v, excludeKeys) == Without(w, excludeKeys)
  {
    if Print(Without(v, excludeKeys)) == Print(Without(w, excludeKeys)) {
      PrintIsInjective(Without(v, excludeKeys), Without(w, excludeKeys), "", "");
    }
  }
}
