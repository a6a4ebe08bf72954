/** A reader of JSON texts, by the grammar of RFC 8259 for the values that are printed here (numbers are integers), and
    the proof that it undoes json.dumps. */
module JsonParse {
  import opened Wrappers
  import opened JsonText

  datatype Read<T> = Got(value: T, rest: string) | Malformed

  function SkipSpace(s: string): (rest: string)
    ensures |rest| <= |s|
    ensures rest == s || |rest| < |s|
  {
    if s != "" && s[0] in {' ', '\t', '\n', '\r'} then SkipSpace(s[1..]) else s
  }

  // ----- characters of a string -----

  function HexDigit(c: char): Option<nat> {
    if '0' <= c <= '9' then Some(c as int - '0' as int)
    else if 'a' <= c <= 'f' then Some(c as int - 'a' as int + 10)
    else if 'A' <= c <= 'F' then Some(c as int - 'A' as int + 10)
    else None
  }

  function HexValue(s: string): Option<nat> {
    if s == "" then Some(0)
    else
      var high, low := HexValue(s[..|s| - 1]), HexDigit(s[|s| - 1]);
      if high.Some? && low.Some? then Some(16 * high.value + low.value) else None
  }

  /** A hexadecimal escape, or two that are a surrogate pair. */
  function ReadHex(s: string): (r: Read<char>)
    ensures r.Got? ==> |r.rest| < |s|
  {
    var first := if |s| >= 4 then HexValue(s[..4]) else None;
    if first.None? then Malformed
    else if first.value < 0xd800 || 0xe000 <= first.value < 0x10000 then Got(first.value as char, s[4..])
    else
      var second := if |s| >= 10 && s[4..6] == "\\u" then HexValue(s[6..10]) else None;
      if second.Some? && first.value < 0xdc00 && 0xdc00 <= second.value < 0xe000
      then Got((0x10000 + 1024 * (first.value - 0xd800) + (second.value - 0xdc00)) as char, s[10..])
      else Malformed
  }

  /** One character, printed as itself or escaped. */
  function ReadChar(s: string): (r: Read<char>)
    ensures r.Got? ==> |r.rest| < |s|
  {
    if s == "" || s[0] < ' ' then Malformed
    else if s[0] != '\\' then Got(s[0], s[1..])
    else if |s| < 2 then Malformed
    else
      match s[1]
      case '"' => Got('"', s[2..])
      case '\\' => Got('\\', s[2..])
      case '/' => Got('/', s[2..])
      case 'n' => Got('\n', s[2..])
      case 'r' => Got('\r', s[2..])
      case 't' => Got('\t', s[2..])
      case 'b' => Got(8 as char, s[2..])
      case 'f' => Got(12 as char, s[2..])
      case 'u' => ReadHex(s[2..])
      case _ => Malformed
  }

  /** The rest of a string, up to its closing quote. */
  function ReadString(s: string): (r: Read<string>)
    ensures r.Got? ==> |r.rest| < |s|
    decreases |s|
  {
    if s == "" then Malformed
    else if s[0] == '"' then Got("", s[1..])
    else
      var first := ReadChar(s);
      if first.Malformed? then Malformed
      else
        var others := ReadString(first.rest);
        if others.Malformed? then Malformed else Got([first.value] + others.value, others.rest)
  }

  // ----- numbers -----

  predicate IsDigit(c: char) {
    '0' <= c <= '9'
  }

  function DigitValue(c: char): nat
    requires IsDigit(c)
  {
    c as int - '0' as int
  }

  function ReadDigits(s: string, sofar: nat): (r: (nat, string))
    ensures |r.1| <= |s|
    decreases |s|
  {
    if s == "" || !IsDigit(s[0]) then (sofar, s) else ReadDigits(s[1..], 10 * sofar + DigitValue(s[0]))
  }

  /** No leading zeros. */
  function ReadNat(s: string): (r: Read<nat>)
    ensures r.Got? ==> |r.rest| < |s|
  {
    if s == "" || !IsDigit(s[0]) then Malformed
    else if s[0] == '0' then Got(0, s[1..])
    else
      var (n, rest) := ReadDigits(s[1..], DigitValue(s[0]));
      Got(n, rest)
  }

  // ----- values -----

  function ReadValue(text: string): (r: Read<Json>)
    ensures r.Got? ==> |r.rest| < |text|
    decreases |text|, 1
  {
    var s := SkipSpace(text);
    if s == "" then Malformed
    else if "null" <= s then Got(JNull, s[4..])
    else if "true" <= s then Got(JBool(true), s[4..])
    else if "false" <= s then Got(JBool(false), s[5..])
    else if s[0] == '"' then
      var r := ReadString(s[1..]);
      if r.Malformed? then Malformed else Got(JString(r.value), r.rest)
    else if s[0] == '[' then
      var body := SkipSpace(s[1..]);
      if body != "" && body[0] == ']' then Got(JArray([]), body[1..])
      else
        var r := ReadItems(body);
        if r.Malformed? then Malformed else Got(JArray(r.value), r.rest)
    else if s[0] == '{' then
      var body := SkipSpace(s[1..]);
      if body != "" && body[0] == '}' then Got(JObject([]), body[1..])
      else
        var r := ReadFields(body);
        if r.Malformed? then Malformed else Got(JObject(r.value), r.rest)
    else if s[0] == '-' then
      var r := ReadNat(s[1..]);
      if r.Malformed? then Malformed else Got(JInt(0 - r.value), r.rest)
    else
      var r := ReadNat(s);
      if r.Malformed? then Malformed else Got(JInt(r.value), r.rest)
  }

  /** One item or more, and the closing bracket. */
  function ReadItems(text: string): (r: Read<seq<Json>>)
    ensures r.Got? ==> |r.rest| < |text|
    decreases |text|, 2
  {
    var first := ReadValue(text);
    if first.Malformed? then Malformed
    else
      var s := SkipSpace(first.rest);
      if s != "" && s[0] == ']' then Got([first.value], s[1..])
      else if s != "" && s[0] == ',' then
        var others := ReadItems(s[1..]);
        if others.Malformed? then Malformed else Got([first.value] + others.value, others.rest)
      else Malformed
  }

  /** A key and its value. */
  function ReadMember(text: string): (r: Read<Member>)
    ensures r.Got? ==> |r.rest| < |text|
    decreases |text|, 2
  {
    var s := SkipSpace(text);
    if s == "" || s[0] != '"' then Malformed
    else
      var key := ReadString(s[1..]);
      if key.Malformed? then Malformed
      else
        var colon := SkipSpace(key.rest);
        if colon == "" || colon[0] != ':' then Malformed
        else
          var value := ReadValue(colon[1..]);
          if value.Malformed? then Malformed else Got(Member(key.value, value.value), value.rest)
  }

  /** One member or more, and the closing brace. */
  function ReadFields(text: string): (r: Read<seq<Member>>)
    ensures r.Got? ==> |r.rest| < |text|
    decreases |text|, 3
  {
    var first := ReadMember(text);
    if first.Malformed? then Malformed
    else
      var s := SkipSpace(first.rest);
      if s != "" && s[0] == '}' then Got([first.value], s[1..])
      else if s != "" && s[0] == ',' then
        var others := ReadFields(s[1..]);
        if others.Malformed? then Malformed else Got([first.value] + others.value, others.rest)
      else Malformed
  }

  function Parse(text: string): Option<Json> {
    var r := ReadValue(text);
    if r.Got? && SkipSpace(r.rest) == "" then Some(r.value) else None
  }

  // ----- strings read back -----

  function Pow16(digits: nat): nat {
    if digits == 0 then 1 else 16 * Pow16(digits - 1)
  }

  lemma HexDigitReadsBack(i: nat)
    requires i < 16
    ensures HexDigit(HEX[i]) == Some(i)
  {
    assert HEX[..10] == "0123456789" && HEX[10..] == "abcdef";
  }

  lemma {:induction false} HexReadsBack(n: nat, digits: nat)
    requires n < Pow16(digits)
    ensures HexValue(Hex(n, digits)) == Some(n)
  {
    hide HexDigit, Hex, HexValue, Pow16;
    if digits == 0 {
      NoDigits(n);
    } else {
      var high, low := HexParts(n, digits);
      HexReadsBack(high, digits - 1);
      HexDigitReadsBack(low);
      HexSnoc(Hex(high, digits - 1), HEX[low]);
    }
  }

  lemma NoDigits(n: nat)
    requires n < Pow16(0)
    ensures HexValue(Hex(n, 0)) == Some(n)
  {
  }

  lemma HexParts(n: nat, digits: nat) returns (high: nat, low: nat)
    requires digits > 0 && n < Pow16(digits)
    ensures n == 16 * high + low && low < 16 && high < Pow16(digits - 1)
    ensures Hex(n, digits) == Hex(high, digits - 1) + [HEX[low]]
  {
    hide Hex;
    high, low := n / 16, n % 16;
    HexIs(n, digits);
  }

  lemma HexIs(n: nat, digits: nat)
    requires digits > 0
    ensures Hex(n, digits) == Hex(n / 16, digits - 1) + [HEX[n % 16]]
  {
  }

  lemma HexSnoc(s: string, c: char)
    ensures HexValue(s + [c]) == if HexValue(s).Some? && HexDigit(c).Some? then Some(16 * HexValue(s).value + HexDigit(c).value)
                                 else None
  {
    hide HexDigit;
    assert (s + [c])[..|s|] == s;
  }

  lemma FourReadBack(n: nat)
    requires n < 0x10000
    ensures |Hex(n, 4)| == 4 && HexValue(Hex(n, 4)) == Some(n)
  {
    hide Hex, HexValue;
    assert Pow16(4) == 0x10000;
    HexReadsBack(n, 4);
  }

  /** Escapes of one character: printed as itself, with a letter after the backslash, or in hexadecimal. */
  predicate IsPlain(c: char) {
    c != '"' && c != '\\' && ' ' <= c <= '~'
  }

  predicate IsHex(c: char) {
    !IsPlain(c) && c !in {'"', '\\', '\n', '\r', '\t'} && c as int != 8 && c as int != 12
  }

  function HexPart(c: char): string {
    if c as int < 0x10000 then Hex(c as int, 4)
    else
      var v := c as int - 0x10000;
      Hex(0xd800 + v / 1024, 4) + ("\\u" + Hex(0xdc00 + v % 1024, 4))
  }

  /** No character is a surrogate, so a surrogate pair is no other character's escape. */
  lemma HexPartReadsBack(c: char, x: string)
    ensures ReadHex(HexPart(c) + x) == Got(c, x)
  {
    hide Hex, HexValue;
    var s := HexPart(c) + x;
    if c as int < 0x10000 {
      FourReadBack(c as int);
      assert s[..4] == Hex(c as int, 4) && s[4..] == x;
    } else {
      var v := c as int - 0x10000;
      var high, low := 0xd800 + v / 1024, 0xdc00 + v % 1024;
      FourReadBack(high);
      FourReadBack(low);
      assert s[..4] == Hex(high, 4) && s[4..6] == "\\u" && s[6..10] == Hex(low, 4) && s[10..] == x;
    }
  }

  lemma EscapeIsHex(c: char)
    requires IsHex(c)
    ensures EscapeChar(c) == "\\u" + HexPart(c)
  {
    hide Hex;
    if c as int >= 0x10000 {
      var v := c as int - 0x10000;
      assert "\\u" + Hex(0xd800 + v / 1024, 4) + "\\u" + Hex(0xdc00 + v % 1024, 4)
          == "\\u" + (Hex(0xd800 + v / 1024, 4) + ("\\u" + Hex(0xdc00 + v % 1024, 4)));
    }
  }

  lemma CharReadsBack(c: char, x: string)
    ensures EscapeChar(c) != "" && EscapeChar(c)[0] != '"'
    ensures ReadChar(EscapeChar(c) + x) == Got(c, x)
  {
    hide Hex, HexPart, ReadHex;
    if IsHex(c) {
      EscapeIsHex(c);
      HexPartReadsBack(c, x);
      assert (EscapeChar(c) + x)[2..] == HexPart(c) + x;
    } else if IsPlain(c) {
      assert (EscapeChar(c) + x)[1..] == x;
    } else {
      assert (EscapeChar(c) + x)[2..] == x;
    }
  }

  /** A printed string ends at its first unescaped quote, whatever characters it holds. */
  lemma {:induction false} StringReadsBack(s: string, x: string)
    ensures ReadString(EscapeString(s) + "\"" + x) == Got(s, x)
  {
    hide EscapeChar, ReadChar;
    if s == "" {
      assert ("" + "\"" + x)[1..] == x;
    } else {
      var tail := EscapeString(s[1..]) + "\"" + x;
      assert EscapeString(s) + "\"" + x == EscapeChar(s[0]) + tail;
      CharReadsBack(s[0], tail);
      StringReadsBack(s[1..], x);
      assert s == [s[0]] + s[1..];
    }
  }

  // ----- numbers read back -----

  /** What may follow a value. */
  predicate Stops(x: string) {
    x == "" || x[0] == ',' || x[0] == ']' || x[0] == '}'
  }

  lemma DigitReadsBack(n: nat)
    requires n < 10
    ensures IsDigit(HEX[n]) && DigitValue(HEX[n]) == n && (HEX[n] == '0' <==> n == 0)
  {
    assert HEX[..10] == "0123456789";
  }

  lemma {:induction false} DigitsReadOn(n: nat, x: string)
    requires n > 0
    ensures Digits(n) != "" && IsDigit(Digits(n)[0]) && Digits(n)[0] != '0'
    ensures ReadDigits(Digits(n)[1..] + x, DigitValue(Digits(n)[0])) == ReadDigits(x, n)
  {
    hide Digits, IsDigit, DigitValue;
    DigitReadsBack(n % 10);
    DigitsSplit(n);
    if n < 10 {
      assert Digits(n)[1..] + x == x;
    } else {
      DigitsReadOn(n / 10, [HEX[n % 10]] + x);
      assert Digits(n)[1..] + x == Digits(n / 10)[1..] + ([HEX[n % 10]] + x);
      OneMoreDigit(HEX[n % 10], x, n / 10);
    }
  }

  lemma DigitsSplit(n: nat)
    ensures Digits(n) == if n < 10 then [HEX[n % 10]] else Digits(n / 10) + [HEX[n % 10]]
  {
  }

  lemma OneMoreDigit(c: char, x: string, sofar: nat)
    requires IsDigit(c)
    ensures ReadDigits([c] + x, sofar) == ReadDigits(x, 10 * sofar + DigitValue(c))
  {
    assert ([c] + x)[1..] == x;
  }

  lemma ZeroReadsBack(x: string)
    requires Stops(x)
    ensures ReadNat(Digits(0) + x) == Got(0, x)
  {
    DigitReadsBack(0);
    assert (Digits(0) + x)[1..] == x;
  }

  lemma NatReadsBack(n: nat, x: string)
    requires Stops(x)
    ensures ReadNat(Digits(n) + x) == Got(n, x)
  {
    hide Digits;
    if n == 0 {
      ZeroReadsBack(x);
    } else {
      DigitsReadOn(n, x);
      assert (Digits(n) + x)[1..] == Digits(n)[1..] + x;
    }
  }

  // ----- values read back -----

  lemma FirstCharacter(j: Json)
    ensures Dumps(j) != "" && Dumps(j)[0] !in {' ', '\t', '\n', '\r', ']', '}'}
  {
    hide Digits, EscapeString, DumpItems, DumpFields;
    if j.JInt? {
      DigitsStart(if j.n < 0 then -j.n else j.n);
    }
  }

  lemma DigitsStart(n: nat)
    ensures Digits(n) != "" && IsDigit(Digits(n)[0])
  {
    if n == 0 {
      DigitReadsBack(0);
    } else {
      DigitsReadOn(n, "");
    }
  }

  /** A space in front is skipped. */
  lemma SpaceFirst(s: string)
    ensures ReadValue(" " + s) == ReadValue(s) && ReadItems(" " + s) == ReadItems(s)
    ensures ReadMember(" " + s) == ReadMember(s) && ReadFields(" " + s) == ReadFields(s)
  {
    assert (" " + s)[1..] == s;
    assert SkipSpace(" " + s) == SkipSpace(s);
  }

  lemma NoSpace(s: string)
    requires s != "" && s[0] !in {' ', '\t', '\n', '\r'}
    ensures SkipSpace(s) == s
  {
  }

  /** The text of a list with its end. */
  function ItemsText(items: seq<Json>, x: string): string {
    DumpItems(items) + "]" + x
  }

  function FieldsText(fields: seq<Member>, x: string): string {
    DumpFields(fields) + "}" + x
  }

  function MemberText(m: Member, x: string): string {
    "\"" + (EscapeString(m.key) + "\"" + (": " + (Dumps(m.value) + x)))
  }

  function ItemsRest(items: seq<Json>, x: string): (r: string)
    requires items != []
    ensures r != "" && Stops(r)
  {
    if |items| == 1 then "]" + x else ", " + ItemsText(items[1..], x)
  }

  function FieldsRest(fields: seq<Member>, x: string): (r: string)
    requires fields != []
    ensures r != "" && Stops(r)
  {
    if |fields| == 1 then "}" + x else ", " + FieldsText(fields[1..], x)
  }

  lemma ItemsSplit(items: seq<Json>, x: string)
    requires items != []
    ensures ItemsText(items, x) == Dumps(items[0]) + ItemsRest(items, x)
  {
    hide Dumps;
    var others := if |items| == 1 then "" else ", " + DumpItems(items[1..]);
    assert DumpItems(items) == Dumps(items[0]) + others;
    OtherItemsAreRest(items, x, others);
    assert Dumps(items[0]) + others + "]" + x == Dumps(items[0]) + (others + "]" + x);
  }

  lemma OtherItemsAreRest(items: seq<Json>, x: string, others: string)
    requires items != [] && others == if |items| == 1 then "" else ", " + DumpItems(items[1..])
    ensures others + "]" + x == ItemsRest(items, x)
  {
    hide DumpItems;
    if |items| == 1 {
      assert "" + "]" == "]";
    } else {
      assert ", " + DumpItems(items[1..]) + "]" + x == ", " + (DumpItems(items[1..]) + "]" + x);
    }
  }

  lemma FieldsSplit(fields: seq<Member>, x: string)
    requires fields != []
    ensures FieldsText(fields, x) == MemberText(fields[0], FieldsRest(fields, x))
  {
    hide Dumps, EscapeString, FieldsText;
    var key, value := EscapeString(fields[0].key), Dumps(fields[0].value);
    var others := if |fields| == 1 then "" else ", " + DumpFields(fields[1..]);
    OthersAreRest(fields, x, others);
    Reassociate(key, value, others, x);
    FieldsTextIs(fields, x);
  }

  lemma FieldsTextIs(fields: seq<Member>, x: string)
    ensures FieldsText(fields, x) == DumpFields(fields) + "}" + x
  {
  }

  lemma OthersAreRest(fields: seq<Member>, x: string, others: string)
    requires fields != [] && others == if |fields| == 1 then "" else ", " + DumpFields(fields[1..])
    ensures others + "}" + x == FieldsRest(fields, x)
  {
    hide DumpFields;
    if |fields| == 1 {
      assert "" + "}" == "}";
    } else {
      assert ", " + DumpFields(fields[1..]) + "}" + x == ", " + (DumpFields(fields[1..]) + "}" + x);
    }
  }

  lemma Reassociate(key: string, value: string, others: string, x: string)
    ensures "\"" + key + "\": " + value + others + "}" + x
         == "\"" + (key + "\"" + (": " + (value + (others + "}" + x))))
  {
    var rest := others + "}" + x;
    assert "\": " == "\"" + ": ";
    assert "\"" + key + "\": " + value + others + "}" + x == "\"" + key + "\": " + value + rest;
    assert "\"" + key + "\": " + value + rest == "\"" + (key + "\": " + (value + rest));
    assert key + "\": " + (value + rest) == key + "\"" + (": " + (value + rest));
  }

  /** Reading what was printed, up to where a value may stop, gives the value. */
  lemma {:induction false} ValueReadsBack(j: Json, x: string)
    requires Stops(x)
    ensures ReadValue(Dumps(j) + x) == Got(j, x)
    decreases j, 1
  {
    hide *;
    match j
    case JNull => NullReadsBack(x);
    case JBool(b) => BoolReadsBack(b, x);
    case JInt(n) => IntReadsBack(n, x);
    case JString(s) => QuotedReadsBack(s, x);
    case JArray(items) =>
      if items != [] {
        ItemsReadBack(items, x);
      }
      ArrayReadsBack(items, x);
    case JObject(fields) =>
      if fields != [] {
        FieldsReadBack(fields, x);
      }
      ObjectReadsBack(fields, x);
  }

  lemma NullReadsBack(x: string)
    ensures ReadValue(Dumps(JNull) + x) == Got(JNull, x)
  {
    assert ("null" + x)[4..] == x;
  }

  lemma BoolReadsBack(b: bool, x: string)
    ensures ReadValue(Dumps(JBool(b)) + x) == Got(JBool(b), x)
  {
    assert ("true" + x)[4..] == x && ("false" + x)[5..] == x;
    assert !("null" <= "true" + x) && !("null" <= "false" + x) && !("true" <= "false" + x) by {
      assert ("true" + x)[0] == 't' && ("false" + x)[0] == 'f';
    }
  }

  lemma IntReadsBack(n: int, x: string)
    requires Stops(x)
    ensures ReadValue(Dumps(JInt(n)) + x) == Got(JInt(n), x)
  {
    hide Digits, ReadNat;
    var digits := Digits(if n < 0 then -n else n);
    var s := Dumps(JInt(n)) + x;
    DigitsStart(if n < 0 then -n else n);
    NatReadsBack(if n < 0 then -n else n, x);
    assert s[0] == if n < 0 then '-' else digits[0];
    NoSpace(s);
    if n < 0 {
      assert s[1..] == digits + x;
    }
  }

  lemma QuotedReadsBack(v: string, x: string)
    ensures ReadValue(Dumps(JString(v)) + x) == Got(JString(v), x)
  {
    hide EscapeString, ReadString;
    var s := Dumps(JString(v)) + x;
    StringReadsBack(v, x);
    assert s[0] == '"' && s[1..] == EscapeString(v) + "\"" + x;
  }

  lemma ArrayReadsBack(items: seq<Json>, x: string)
    requires items != [] ==> ReadItems(ItemsText(items, x)) == Got(items, x)
    ensures ReadValue(Dumps(JArray(items)) + x) == Got(JArray(items), x)
  {
    hide DumpItems, ReadItems;
    var s := Dumps(JArray(items)) + x;
    assert s[0] == '[' && s[1..] == ItemsText(items, x);
    if items == [] {
      NoItems(x);
    } else {
      FirstOfItems(items, x);
      NoSpace(ItemsText(items, x));
    }
  }

  lemma NoItems(x: string)
    ensures ItemsText([], x) == "]" + x && ("]" + x)[1..] == x
  {
  }

  lemma FirstOfItems(items: seq<Json>, x: string)
    requires items != []
    ensures ItemsText(items, x) != "" && ItemsText(items, x)[0] !in {' ', '\t', '\n', '\r', ']', '}'}
  {
    hide Dumps, ItemsText;
    ItemsSplit(items, x);
    FirstCharacter(items[0]);
  }

  lemma ObjectReadsBack(fields: seq<Member>, x: string)
    requires fields != [] ==> ReadFields(FieldsText(fields, x)) == Got(fields, x)
    ensures ReadValue(Dumps(JObject(fields)) + x) == Got(JObject(fields), x)
  {
    hide DumpFields, ReadFields, EscapeString;
    var s := Dumps(JObject(fields)) + x;
    assert s[0] == '{' && s[1..] == FieldsText(fields, x);
    if fields == [] {
      NoFields(x);
    } else {
      FieldsSplit(fields, x);
      assert FieldsText(fields, x)[0] == '"';
      NoSpace(FieldsText(fields, x));
    }
  }

  lemma NoFields(x: string)
    ensures FieldsText([], x) == "}" + x && ("}" + x)[1..] == x
  {
  }

  lemma {:induction false} ItemsReadBack(items: seq<Json>, x: string)
    requires items != []
    ensures ReadItems(ItemsText(items, x)) == Got(items, x)
    decreases items, 0
  {
    hide *;
    ItemsSplit(items, x);
    ValueReadsBack(items[0], ItemsRest(items, x));
    if |items| > 1 {
      ItemsReadBack(items[1..], x);
    }
    ItemsStep(items, x);
  }

  lemma ItemsStep(items: seq<Json>, x: string)
    requires items != []
    requires ReadValue(ItemsText(items, x)) == Got(items[0], ItemsRest(items, x))
    requires |items| > 1 ==> ReadItems(ItemsText(items[1..], x)) == Got(items[1..], x)
    ensures ReadItems(ItemsText(items, x)) == Got(items, x)
  {
    hide ReadValue, ItemsText;
    var rest := ItemsRest(items, x);
    NoSpace(rest);
    assert items == [items[0]] + items[1..];
    if |items| == 1 {
      assert rest[1..] == x && items == [items[0]];
    } else {
      assert rest[1..] == " " + ItemsText(items[1..], x);
      SpaceFirst(ItemsText(items[1..], x));
    }
  }

  lemma {:induction false} FieldsReadBack(fields: seq<Member>, x: string)
    requires fields != []
    ensures ReadFields(FieldsText(fields, x)) == Got(fields, x)
    decreases fields, 0
  {
    hide *;
    FieldsSplit(fields, x);
    ValueReadsBack(fields[0].value, FieldsRest(fields, x));
    MemberReadsBack(fields[0], FieldsRest(fields, x));
    if |fields| > 1 {
      FieldsReadBack(fields[1..], x);
    }
    FieldsStep(fields, x);
  }

  lemma MemberReadsBack(m: Member, x: string)
    requires ReadValue(Dumps(m.value) + x) == Got(m.value, x)
    ensures ReadMember(MemberText(m, x)) == Got(m, x)
  {
    hide ReadValue, Dumps, EscapeString, ReadString;
    var s, value := MemberText(m, x), Dumps(m.value) + x;
    StringReadsBack(m.key, ": " + value);
    NoSpace(s);
    assert s[1..] == EscapeString(m.key) + "\"" + (": " + value);
    NoSpace(": " + value);
    assert (": " + value)[1..] == " " + value;
    SpaceFirst(value);
  }

  lemma FieldsStep(fields: seq<Member>, x: string)
    requires fields != []
    requires ReadMember(FieldsText(fields, x)) == Got(fields[0], FieldsRest(fields, x))
    requires |fields| > 1 ==> ReadFields(FieldsText(fields[1..], x)) == Got(fields[1..], x)
    ensures ReadFields(FieldsText(fields, x)) == Got(fields, x)
  {
    hide ReadMember, FieldsText;
    var rest := FieldsRest(fields, x);
    NoSpace(rest);
    assert fields == [fields[0]] + fields[1..];
    if |fields| == 1 {
      assert rest[1..] == x && fields == [fields[0]];
    } else {
      assert rest[1..] == " " + FieldsText(fields[1..], x);
      SpaceFirst(FieldsText(fields[1..], x));
    }
  }

  /** The reader undoes the printer, for every value. */
  lemma ParseUndoesDumps(j: Json)
    ensures Parse(Dumps(j)) == Some(j)
  {
    hide Dumps, ReadValue;
    assert Dumps(j) + "" == Dumps(j);
    ValueReadsBack(j, "");
  }
}
