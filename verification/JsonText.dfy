/** JSON values and the text json.dumps prints for them. */
module JsonText {
  // ----- json.dumps (ASCII output, default separators) -----

  datatype Json = JNull | JBool(b: bool) | JInt(n: int) | JString(s: string)
                | JArray(items: seq<Json>) | JObject(fields: seq<Member>)

  datatype Member = Member(key: string, value: Json)

  const HEX := "0123456789abcdef"

  function Hex(n: nat, digits: nat): string
    ensures |Hex(n, digits)| == digits
    ensures forall c :: c in Hex(n, digits) ==> ' ' < c <= '~'
  {
    if digits == 0 then "" else Hex(n / 16, digits - 1) + [HEX[n % 16]]
  }

  /** Characters beyond the basic plane are printed as a surrogate pair. */
  function EscapeChar(c: char): string {
    if c == '"' then "\\\"" else if c == '\\' then "\\\\"
    else if c == '\n' then "\\n" else if c == '\r' then "\\r" else if c == '\t' then "\\t"
    else if c as int == 8 then "\\b" else if c as int == 12 then "\\f"
    else if ' ' <= c <= '~' then [c]
    else if c as int < 0x10000 then "\\u" + Hex(c as int, 4)
    else
      var v := c as int - 0x10000;
      "\\u" + Hex(0xd800 + v / 1024, 4) + "\\u" + Hex(0xdc00 + v % 1024, 4)
  }

  function EscapeString(s: string): string {
    if s == "" then "" else EscapeChar(s[0]) + EscapeString(s[1..])
  }

  function Digits(n: nat): string {
    if n < 10 then [HEX[n]] else Digits(n / 10) + [HEX[n % 10]]
  }

  function Dumps(j: Json): string
    decreases j, 1
  {
    match j
    case JNull => "null"
    case JBool(b) => if b then "true" else "false"
    case JInt(n) => if n < 0 then "-" + Digits(-n) else Digits(n)
    case JString(s) => "\"" + EscapeString(s) + "\""
    case JArray(items) => "[" + DumpItems(items) + "]"
    case JObject(fields) => "{" + DumpFields(fields) + "}"
  }

  function DumpItems(items: seq<Json>): string
    decreases items, 0
  {
    if items == [] then ""
    else Dumps(items[0]) + (if |items| == 1 then "" else ", " + DumpItems(items[1..]))
  }

  function DumpFields(fields: seq<Member>): string
    decreases fields, 0
  {
    if fields == [] then ""
    else "\"" + EscapeString(fields[0].key) + "\": " + Dumps(fields[0].value) +
         (if |fields| == 1 then "" else ", " + DumpFields(fields[1..]))
  }

  /** The separators of json.dumps, to the letter. */
  lemma ItemsAreSeparated(item: Json, rest: seq<Json>)
    requires rest != []
    ensures Dumps(JArray([])) == "[]" && Dumps(JArray([item])) == "[" + Dumps(item) + "]"
    ensures Dumps(JArray([item] + rest)) == "[" + Dumps(item) + ", " + Dumps(JArray(rest))[1..]
    ensures Dumps(JNull) == "null" && Dumps(JBool(true)) == "true" && Dumps(JBool(false)) == "false"
  {
    hide EscapeString, Digits, DumpFields, DumpItems;
    DumpItemsFront(item, rest);
    assert Dumps(JArray(rest)) == "[" + DumpItems(rest) + "]";
    assert Dumps(JArray(rest))[1..] == DumpItems(rest) + "]";
  }

  lemma DumpItemsFront(item: Json, rest: seq<Json>)
    ensures DumpItems([]) == "" && DumpItems([item]) == Dumps(item)
    ensures rest != [] ==> DumpItems([item] + rest) == Dumps(item) + (", " + DumpItems(rest))
  {
    hide Dumps;
    assert DumpItems([item]) == Dumps(item) + "" == Dumps(item);
    if rest != [] {
      assert ([item] + rest)[1..] == rest;
    }
  }

  lemma FieldsAreSeparated(first: Member, rest: seq<Member>)
    requires rest != []
    ensures Dumps(JObject([])) == "{}"
    ensures Dumps(JObject([first])) == "{\"" + EscapeString(first.key) + "\": " + Dumps(first.value) + "}"
    ensures Dumps(JObject([first] + rest))
         == "{\"" + EscapeString(first.key) + "\": " + Dumps(first.value) + ", " + Dumps(JObject(rest))[1..]
  {
    hide EscapeString, Digits, DumpItems;
    var head := "\"" + EscapeString(first.key) + "\": " + Dumps(first.value);
    assert DumpFields([first]) == head + "" == head;
    assert ([first] + rest)[1..] == rest;
    assert DumpFields([first] + rest) == head + (", " + DumpFields(rest));
    assert Dumps(JObject(rest)) == "{" + DumpFields(rest) + "}";
    assert Dumps(JObject(rest))[1..] == DumpFields(rest) + "}";
  }

  predicate Printable(s: string) {
    forall c :: c in s ==> ' ' <= c <= '~'
  }

  lemma {:induction false} EscapeIsPrintable(s: string)
    ensures Printable(EscapeString(s))
  {
    if s != "" {
      EscapeIsPrintable(s[1..]);
    }
  }

  lemma {:induction false} DigitsArePrintable(n: nat)
    ensures Printable(Digits(n))
  {
    if n >= 10 {
      DigitsArePrintable(n / 10);
    }
  }

  /** Whatever the payload's strings hold, the printed JSON is one line of printable ASCII. */
  lemma {:induction false} DumpsIsPrintable(j: Json)
    ensures Printable(Dumps(j))
    decreases j, 1
  {
    hide Digits, EscapeString, DumpItems, DumpFields;
    match j
    case JInt(n) => DigitsArePrintable(if n < 0 then -n else n);
    case JString(s) => EscapeIsPrintable(s);
    case JArray(items) => ItemsArePrintable(items);
    case JObject(fields) => FieldsArePrintable(fields);
    case _ =>
  }

  lemma {:induction false} ItemsArePrintable(items: seq<Json>)
    ensures Printable(DumpItems(items))
    decreases items, 0
  {
    hide Dumps;
    if items != [] {
      DumpsIsPrintable(items[0]);
      ItemsArePrintable(items[1..]);
    }
  }

  lemma {:induction false} FieldsArePrintable(fields: seq<Member>)
    ensures Printable(DumpFields(fields))
    decreases fields, 0
  {
    hide Dumps, EscapeString;
    if fields != [] {
      EscapeIsPrintable(fields[0].key);
      DumpsIsPrintable(fields[0].value);
      FieldsArePrintable(fields[1..]);
    }
  }
}
