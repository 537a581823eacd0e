/** The part of JSON that checkpoints and events use: `JSON.stringify` as
    `Serialize` and `JSON.parse` as `Parse`, over null, booleans, integers,
    strings, arrays and objects (no floating-point numbers). */
module Json {
  import opened Wrappers

  /** A JSON value. An object is the list of its members in text order;
      repeated names are kept (see `Lookup` for which one a read sees). */
  datatype Json =
    | JNull
    | JBool(b: bool)
    | JInt(n: int)
    | JStr(s: string)
    | JArr(items: seq<Json>)
    | JObj(fields: seq<Field>)

  datatype Field = Field(key: string, value: Json)

  // ---------------------------------------------------------------------------
  // Characters

  predicate IsDigit(c: char) { '0' <= c <= '9' }

  predicate IsWs(c: char) { c == ' ' || c == '\t' || c == '\n' || c == '\r' }

  predicate IsHexDigit(c: char) { IsDigit(c) || 'a' <= c <= 'f' || 'A' <= c <= 'F' }

  function DigitChar(d: nat): (c: char)
    requires d < 10
    ensures IsDigit(c) && (c == '0' <==> d == 0)
  {
    ('0' as int + d) as char
  }

  function DigitValue(c: char): (d: nat)
    requires IsDigit(c)
    ensures d < 10 && DigitChar(d) == c
  {
    c as int - '0' as int
  }

  /** Lower-case hexadecimal digit, as `JSON.stringify` writes it. */
  function HexChar(d: nat): (c: char)
    requires d < 16
    ensures IsHexDigit(c)
  {
    if d < 10 then DigitChar(d) else ('a' as int + d - 10) as char
  }

  function HexValue(c: char): (d: nat)
    requires IsHexDigit(c)
    ensures d < 16
  {
    if IsDigit(c) then DigitValue(c)
    else if 'a' <= c <= 'f' then c as int - 'a' as int + 10
    else c as int - 'A' as int + 10
  }

  lemma HexValueOfHexChar(d: nat)
    requires d < 16
    ensures HexValue(HexChar(d)) == d
  {
  }

  predicate AllDigits(s: string)
  {
    forall i | 0 <= i < |s| :: IsDigit(s[i])
  }

  /** `obj[key]` on an object: the value of the LAST member with that key
      (later members overwrite earlier ones, as in object literals and
      `JSON.parse`); `None` is `undefined`. */
  function Lookup(fields: seq<Field>, key: string): (r: Option<Json>)
    ensures r.None? <==> forall i | 0 <= i < |fields| :: fields[i].key != key
    ensures r.Some? ==> Field(key, r.value) in fields
  {
    if fields == [] then None
    else if fields[|fields| - 1].key == key then Some(fields[|fields| - 1].value)
    else Lookup(fields[..|fields| - 1], key)
  }

  /** The member `Lookup` finds is the last one with that name. */
  lemma {:induction false} LookupFindsLast(fields: seq<Field>, key: string, i: nat)
    requires i < |fields| && fields[i].key == key
    requires forall j | i < j < |fields| :: fields[j].key != key
    ensures Lookup(fields, key) == Some(fields[i].value)
    decreases |fields|
  {
    if i < |fields| - 1 {
      var init := fields[..|fields| - 1];
      assert init[i] == fields[i];
      assert forall j | i < j < |init| :: init[j] == fields[j];
      LookupFindsLast(init, key, i);
    }
  }

  // ---------------------------------------------------------------------------
  // JSON.stringify

  /** Decimal notation of a natural number, most significant digit first,
      without leading zeros. */
  function NatToString(n: nat): (r: string)
    ensures |r| >= 1 && AllDigits(r)
    ensures r[0] == '0' <==> n == 0
    ensures n == 0 ==> r == "0"
  {
    if n < 10 then [DigitChar(n)] else NatToString(n / 10) + [DigitChar(n % 10)]
  }

  function IntToString(n: int): string
  {
    if n < 0 then "-" + NatToString(-n) else NatToString(n)
  }

  /** One character of a string literal: quote, backslash and the control
      characters are escaped, with the short forms where JSON has them and
      `\u00xx` otherwise. */
  function EscapeChar(c: char): string
  {
    if c == '"' then "\\\""
    else if c == '\\' then "\\\\"
    else if c as int == 8 then "\\b"
    else if c as int == 12 then "\\f"
    else if c == '\n' then "\\n"
    else if c == '\r' then "\\r"
    else if c == '\t' then "\\t"
    else if c as int < 0x20 then "\\u00" + [HexChar(c as int / 16), HexChar(c as int % 16)]
    else [c]
  }

  function Escape(s: string): string
  {
    if s == [] then "" else EscapeChar(s[0]) + Escape(s[1..])
  }

  function Quote(s: string): string
  {
    "\"" + Escape(s) + "\""
  }

  /** A character `JSON.stringify` writes as it is. */
  predicate IsPlain(c: char)
  {
    c != '"' && c != '\\' && c as int >= 0x20
  }

  /** A string without quotes, backslashes and control characters is written
      between the quotes unchanged. */
  lemma {:induction false} EscapePlain(s: string)
    requires forall i | 0 <= i < |s| :: IsPlain(s[i])
    ensures Escape(s) == s
  {
    if s != [] {
      EscapePlain(s[1..]);
      assert [s[0]] + s[1..] == s;
    }
  }

  /** `JSON.stringify(j)`: compact, no white space. */
  function Serialize(j: Json): string
    decreases j
  {
    match j
    case JNull => "null"
    case JBool(b) => if b then "true" else "false"
    case JInt(n) => IntToString(n)
    case JStr(s) => Quote(s)
    case JArr(items) => "[" + SerializeItems(items) + "]"
    case JObj(fields) => "{" + SerializeFields(fields) + "}"
  }

  /** Array elements separated by commas. */
  function SerializeItems(items: seq<Json>): string
    decreases items
  {
    if items == [] then ""
    else if |items| == 1 then Serialize(items[0])
    else Serialize(items[0]) + "," + SerializeItems(items[1..])
  }

  /** Object members `"key":value` separated by commas. */
  function SerializeFields(fields: seq<Field>): string
    decreases fields
  {
    if fields == [] then ""
    else if |fields| == 1 then SerializeField(fields[0])
    else SerializeField(fields[0]) + "," + SerializeFields(fields[1..])
  }

  function SerializeField(f: Field): string
    decreases f
  {
    Quote(f.key) + ":" + Serialize(f.value)
  }

  // ---------------------------------------------------------------------------
  // JSON.parse

  function SkipWs(s: string): (r: string)
    ensures |r| <= |s|
    ensures r == [] || !IsWs(r[0])
  {
    if s != [] && IsWs(s[0]) then SkipWs(s[1..]) else s
  }

  /** The number of digits `s` starts with. */
  function DigitRun(s: string): (k: nat)
    ensures k <= |s| && AllDigits(s[..k])
    ensures k < |s| ==> !IsDigit(s[k])
  {
    if s != [] && IsDigit(s[0]) then 1 + DigitRun(s[1..]) else 0
  }

  /** The number a string of decimal digits denotes. */
  function DigitsValue(s: string): nat
    requires AllDigits(s)
  {
    if s == [] then 0 else DigitsValue(s[..|s| - 1]) * 10 + DigitValue(s[|s| - 1])
  }

  /** A natural number: `0` alone, or a non-zero digit followed by digits. */
  function ParseNat(s: string): (r: Option<(nat, string)>)
    ensures r.Some? ==> |r.value.1| < |s|
  {
    if s == [] || !IsDigit(s[0]) then None
    else if s[0] == '0' then Some((0, s[1..]))
    else
      var k := DigitRun(s);
      Some((DigitsValue(s[..k]), s[k..]))
  }

  function ParseInt(s: string): (r: Option<(int, string)>)
    ensures r.Some? ==> |r.value.1| < |s|
  {
    if s != [] && s[0] == '-' then
      match ParseNat(s[1..])
      case Some((n, rest)) => Some((0 - n, rest))
      case None => None
    else
      match ParseNat(s)
      case Some((n, rest)) => Some((n, rest))
      case None => None
  }

  /** Unicode code points that are UTF-16 surrogates: a `\u` escape naming
      one of them has no single character to stand for. */
  predicate IsSurrogate(code: int) { 0xD800 <= code <= 0xDFFF }

  /** One character of a string literal (not the closing quote). Raw control
      characters are refused, as JSON requires. */
  function ParseChar(s: string): (r: Option<(char, string)>)
    requires s != []
    ensures r.Some? ==> |r.value.1| < |s|
  {
    if s[0] == '\\' then
      if |s| < 2 then None
      else if s[1] == '"' then Some(('"', s[2..]))
      else if s[1] == '\\' then Some(('\\', s[2..]))
      else if s[1] == '/' then Some(('/', s[2..]))
      else if s[1] == 'b' then Some((8 as char, s[2..]))
      else if s[1] == 'f' then Some((12 as char, s[2..]))
      else if s[1] == 'n' then Some(('\n', s[2..]))
      else if s[1] == 'r' then Some(('\r', s[2..]))
      else if s[1] == 't' then Some(('\t', s[2..]))
      else if s[1] == 'u' && |s| >= 6
           && IsHexDigit(s[2]) && IsHexDigit(s[3]) && IsHexDigit(s[4]) && IsHexDigit(s[5]) then
        var code := ((HexValue(s[2]) * 16 + HexValue(s[3])) * 16 + HexValue(s[4])) * 16 + HexValue(s[5]);
        if IsSurrogate(code) then None else Some((code as char, s[6..]))
      else None
    else if s[0] as int < 0x20 then None
    else Some((s[0], s[1..]))
  }

  /** The characters of a string literal after its opening quote, up to and
      without the closing quote; the rest follows the closing quote. */
  function ParseChars(s: string): (r: Option<(string, string)>)
    ensures r.Some? ==> |r.value.1| < |s|
    decreases |s|
  {
    if s == [] then None
    else if s[0] == '"' then Some(([], s[1..]))
    else
      match ParseChar(s)
      case None => None
      case Some((c, rest)) =>
        match ParseChars(rest)
        case None => None
        case Some((cs, rest')) => Some(([c] + cs, rest'))
  }

  function ParseLiteral(s: string, literal: string, value: Json): (r: Option<(Json, string)>)
    requires |literal| > 0
    ensures r.Some? ==> |r.value.1| < |s|
  {
    if |literal| <= |s| && s[..|literal|] == literal then Some((value, s[|literal|..])) else None
  }

  /** One JSON value after optional white space; the rest follows it. */
  function ParseValue(s: string): (r: Option<(Json, string)>)
    ensures r.Some? ==> |r.value.1| < |s|
    decreases |s|, 0
  {
    var t := SkipWs(s);
    if t == [] then None
    else if t[0] == 'n' then ParseLiteral(t, "null", JNull)
    else if t[0] == 't' then ParseLiteral(t, "true", JBool(true))
    else if t[0] == 'f' then ParseLiteral(t, "false", JBool(false))
    else if t[0] == '"' then ParseString(t[1..])
    else if t[0] == '-' || IsDigit(t[0]) then ParseNumber(t)
    else if t[0] == '[' then ParseArray(t[1..])
    else if t[0] == '{' then ParseObject(t[1..])
    else None
  }

  /** A string value after its opening quote. */
  function ParseString(s: string): (r: Option<(Json, string)>)
    ensures r.Some? ==> |r.value.1| < |s|
  {
    match ParseChars(s)
    case None => None
    case Some((str, rest)) => Some((JStr(str), rest))
  }

  function ParseNumber(s: string): (r: Option<(Json, string)>)
    ensures r.Some? ==> |r.value.1| < |s|
  {
    match ParseInt(s)
    case None => None
    case Some((n, rest)) => Some((JInt(n), rest))
  }

  /** An array after its opening bracket. */
  function ParseArray(s: string): (r: Option<(Json, string)>)
    ensures r.Some? ==> |r.value.1| < |s|
    decreases |s|, 2
  {
    var u := SkipWs(s);
    if u != [] && u[0] == ']' then Some((JArr([]), u[1..]))
    else
      match ParseItems(u)
      case None => None
      case Some((items, rest)) => Some((JArr(items), rest))
  }

  /** An object after its opening brace. */
  function ParseObject(s: string): (r: Option<(Json, string)>)
    ensures r.Some? ==> |r.value.1| < |s|
    decreases |s|, 2
  {
    var u := SkipWs(s);
    if u != [] && u[0] == '}' then Some((JObj([]), u[1..]))
    else
      match ParseFields(u)
      case None => None
      case Some((fields, rest)) => Some((JObj(fields), rest))
  }

  /** Array elements and the closing bracket. */
  function ParseItems(s: string): (r: Option<(seq<Json>, string)>)
    ensures r.Some? ==> |r.value.1| < |s|
    decreases |s|, 1
  {
    match ParseValue(s)
    case None => None
    case Some((v, rest)) =>
      var u := SkipWs(rest);
      if u == [] then None
      else if u[0] == ',' then
        match ParseItems(u[1..])
        case None => None
        case Some((vs, rest')) => Some(([v] + vs, rest'))
      else if u[0] == ']' then Some(([v], u[1..]))
      else None
  }

  /** One object member `"key": value`. */
  function ParseMember(s: string): (r: Option<(Field, string)>)
    ensures r.Some? ==> |r.value.1| < |s|
    decreases |s|, 0
  {
    var t := SkipWs(s);
    if t == [] || t[0] != '"' then None
    else
      match ParseChars(t[1..])
      case None => None
      case Some((key, rest)) =>
        var u := SkipWs(rest);
        if u == [] || u[0] != ':' then None
        else
          match ParseValue(u[1..])
          case None => None
          case Some((v, rest')) => Some((Field(key, v), rest'))
  }

  /** Object members and the closing brace. */
  function ParseFields(s: string): (r: Option<(seq<Field>, string)>)
    ensures r.Some? ==> |r.value.1| < |s|
    decreases |s|, 1
  {
    match ParseMember(s)
    case None => None
    case Some((f, rest)) =>
      var w := SkipWs(rest);
      if w == [] then None
      else if w[0] == ',' then
        match ParseFields(w[1..])
        case None => None
        case Some((fs, rest')) => Some(([f] + fs, rest'))
      else if w[0] == '}' then Some(([f], w[1..]))
      else None
  }

  /** `JSON.parse(s)`: one value, surrounded by optional white space and
      nothing else; `None` where `JSON.parse` throws. */
  function Parse(s: string): Option<Json>
  {
    match ParseValue(s)
    case None => None
    case Some((j, rest)) => if SkipWs(rest) == [] then Some(j) else None
  }

  // ---------------------------------------------------------------------------
  // Round trip: JSON.parse(JSON.stringify(j)) == j

  /** Text that can follow a value without extending it: a number swallows
      every digit after it. */
  predicate Delimits(rest: string)
  {
    rest == [] || !IsDigit(rest[0])
  }

  lemma {:induction false} DigitRunOfDigits(d: string, rest: string)
    requires AllDigits(d) && Delimits(rest)
    ensures DigitRun(d + rest) == |d|
    decreases |d|
  {
    if d != [] {
      assert (d + rest)[1..] == d[1..] + rest;
      DigitRunOfDigits(d[1..], rest);
    }
  }

  lemma {:induction false} DigitsValueOfNatToString(n: nat)
    ensures DigitsValue(NatToString(n)) == n
  {
    if n >= 10 {
      var p := NatToString(n / 10);
      var s := p + [DigitChar(n % 10)];
      assert s[..|s| - 1] == p;
      DigitsValueOfNatToString(n / 10);
    }
  }

  lemma NatRoundTrip(n: nat, rest: string)
    requires Delimits(rest)
    ensures ParseNat(NatToString(n) + rest) == Some((n, rest))
  {
    var d := NatToString(n);
    var s := d + rest;
    assert s[0] == d[0];
    if n != 0 {
      DigitRunOfDigits(d, rest);
      assert s[..|d|] == d;
      assert s[|d|..] == rest;
      DigitsValueOfNatToString(n);
    } else {
      assert s[1..] == rest;
    }
  }

  lemma IntRoundTrip(n: int, rest: string)
    requires Delimits(rest)
    ensures ParseInt(IntToString(n) + rest) == Some((n, rest))
  {
    if n < 0 {
      NegativeRoundTrip(n, rest);
    } else {
      var d := NatToString(n);
      assert IntToString(n) + rest == d + rest;
      assert ParseNat(d + rest) == Some((n, rest)) by {
        NatRoundTrip(n, rest);
      }
      assert (d + rest)[0] == d[0] && IsDigit(d[0]);
    }
  }

  lemma NegativeRoundTrip(n: int, rest: string)
    requires n < 0 && Delimits(rest)
    ensures ParseInt(IntToString(n) + rest) == Some((n, rest))
  {
    var m: nat := -n;
    var d := NatToString(m);
    var s := IntToString(n) + rest;
    assert s == "-" + (d + rest);
    assert s[1..] == d + rest;
    assert ParseNat(d + rest) == Some((m, rest)) by {
      NatRoundTrip(m, rest);
    }
  }

  lemma CharRoundTrip(c: char, rest: string)
    ensures EscapeChar(c) != [] && EscapeChar(c)[0] != '"'
    ensures ParseChar(EscapeChar(c) + rest) == Some((c, rest))
  {
    var e := EscapeChar(c);
    var s := e + rest;
    if c == '"' || c == '\\' || c as int == 8 || c as int == 12 || c == '\n' || c == '\r' || c == '\t' {
      assert s[2..] == rest;
    } else if c as int < 0x20 {
      var hi, lo := c as int / 16, c as int % 16;
      assert s[2] == '0' && s[3] == '0' && s[4] == HexChar(hi) && s[5] == HexChar(lo);
      HexValueOfHexChar(0);
      HexValueOfHexChar(hi);
      HexValueOfHexChar(lo);
      assert s[6..] == rest;
    } else {
      assert s[1..] == rest;
    }
  }

  lemma {:induction false} CharsRoundTrip(str: string, rest: string)
    ensures ParseChars(Escape(str) + "\"" + rest) == Some((str, rest))
    decreases |str|
  {
    var s := Escape(str) + "\"" + rest;
    if str == [] {
      assert s[1..] == rest;
    } else {
      var tail := Escape(str[1..]) + "\"" + rest;
      assert s == EscapeChar(str[0]) + tail;
      CharRoundTrip(str[0], tail);
      CharsRoundTrip(str[1..], rest);
      assert [str[0]] + str[1..] == str;
    }
  }

  /** What a serialized value starts with. */
  lemma SerializeHead(j: Json)
    ensures Serialize(j) != []
    ensures var c := Serialize(j)[0];
      match j
      case JNull => c == 'n'
      case JBool(b) => c == (if b then 't' else 'f')
      case JInt(_) => c == '-' || IsDigit(c)
      case JStr(_) => c == '"'
      case JArr(_) => c == '['
      case JObj(_) => c == '{'
  {
  }

  lemma LiteralRoundTrip(j: Json, rest: string)
    requires j.JNull? || j.JBool?
    ensures ParseValue(Serialize(j) + rest) == Some((j, rest))
  {
    var s := Serialize(j) + rest;
    SerializeHead(j);
    assert s[0] == Serialize(j)[0];
    assert SkipWs(s) == s;
    if j.JNull? {
      assert s[..4] == "null" && s[4..] == rest;
    } else if j.b {
      assert s[..4] == "true" && s[4..] == rest;
    } else {
      assert s[..5] == "false" && s[5..] == rest;
    }
  }

  lemma NumberRoundTrip(n: int, rest: string)
    requires Delimits(rest)
    ensures ParseValue(Serialize(JInt(n)) + rest) == Some((JInt(n), rest))
  {
    var s := Serialize(JInt(n)) + rest;
    SerializeHead(JInt(n));
    assert s[0] == Serialize(JInt(n))[0];
    assert SkipWs(s) == s;
    assert ParseValue(s) == ParseNumber(s);
    IntRoundTrip(n, rest);
  }

  lemma StringRoundTrip(str: string, rest: string)
    ensures ParseValue(Serialize(JStr(str)) + rest) == Some((JStr(str), rest))
  {
    var s := Serialize(JStr(str)) + rest;
    assert s == "\"" + (Escape(str) + "\"" + rest);
    assert SkipWs(s) == s;
    assert ParseValue(s) == ParseString(s[1..]);
    CharsRoundTrip(str, rest);
  }

  lemma {:induction false} ValueRoundTrip(j: Json, rest: string)
    requires Delimits(rest)
    ensures ParseValue(Serialize(j) + rest) == Some((j, rest))
    decreases j, 3
  {
    match j
    case JNull => LiteralRoundTrip(j, rest);
    case JBool(_) => LiteralRoundTrip(j, rest);
    case JInt(n) => NumberRoundTrip(n, rest);
    case JStr(str) => StringRoundTrip(str, rest);
    case JArr(items) => ArrayRoundTrip(items, rest);
    case JObj(fields) => ObjectRoundTrip(fields, rest);
  }

  lemma {:induction false} ArrayRoundTrip(items: seq<Json>, rest: string)
    ensures ParseValue(Serialize(JArr(items)) + rest) == Some((JArr(items), rest))
    decreases items, 3
  {
    var inner := SerializeItems(items) + "]" + rest;
    var s := Serialize(JArr(items)) + rest;
    assert s == "[" + inner;
    assert s[1..] == inner;
    assert SkipWs(s) == s;
    assert ParseValue(s) == ParseArray(inner);
    ArrayBodyRoundTrip(items, rest);
  }

  lemma {:induction false} ArrayBodyRoundTrip(items: seq<Json>, rest: string)
    ensures ParseArray(SerializeItems(items) + "]" + rest) == Some((JArr(items), rest))
    decreases items, 2
  {
    var u := SerializeItems(items) + "]" + rest;
    if items == [] {
      assert u[1..] == rest;
    } else {
      SerializeHead(items[0]);
      assert u[0] == Serialize(items[0])[0];
      assert SkipWs(u) == u;
      ItemsRoundTrip(items, rest);
    }
  }

  lemma {:induction false} ObjectRoundTrip(fields: seq<Field>, rest: string)
    ensures ParseValue(Serialize(JObj(fields)) + rest) == Some((JObj(fields), rest))
    decreases fields, 3
  {
    var inner := SerializeFields(fields) + "}" + rest;
    var s := Serialize(JObj(fields)) + rest;
    assert s == "{" + inner;
    assert s[1..] == inner;
    assert SkipWs(s) == s;
    assert ParseValue(s) == ParseObject(inner);
    ObjectBodyRoundTrip(fields, rest);
  }

  lemma {:induction false} ObjectBodyRoundTrip(fields: seq<Field>, rest: string)
    ensures ParseObject(SerializeFields(fields) + "}" + rest) == Some((JObj(fields), rest))
    decreases fields, 2
  {
    var u := SerializeFields(fields) + "}" + rest;
    if fields == [] {
      assert u[1..] == rest;
    } else {
      FieldsText(fields, rest);
      assert u[0] == '"';
      assert SkipWs(u) == u;
      FieldsRoundTrip(fields, rest);
    }
  }

  /** The text of a non-empty array body, split after its first element. */
  lemma ItemsText(items: seq<Json>, rest: string)
    requires items != []
    ensures SerializeItems(items) + "]" + rest == Serialize(items[0]) + ItemsTail(items, rest)
  {
  }

  function ItemsTail(items: seq<Json>, rest: string): string
    requires items != []
  {
    if |items| == 1 then "]" + rest else "," + SerializeItems(items[1..]) + "]" + rest
  }

  /** One step of `ParseItems`: an element followed by a comma and the
      remaining elements. */
  lemma ItemsStepMore(s: string, v: Json, tail: string, vs: seq<Json>, rest: string)
    requires ParseValue(s) == Some((v, tail))
    requires tail != [] && tail[0] == ','
    requires ParseItems(tail[1..]) == Some((vs, rest))
    ensures ParseItems(s) == Some(([v] + vs, rest))
  {
    assert SkipWs(tail) == tail;
  }

  /** The last step of `ParseItems`: an element followed by the bracket. */
  lemma ItemsStepLast(s: string, v: Json, tail: string)
    requires ParseValue(s) == Some((v, tail))
    requires tail != [] && tail[0] == ']'
    ensures ParseItems(s) == Some(([v], tail[1..]))
  {
    assert SkipWs(tail) == tail;
  }

  lemma {:induction false} ItemsRoundTrip(items: seq<Json>, rest: string)
    requires items != []
    ensures ParseItems(SerializeItems(items) + "]" + rest) == Some((items, rest))
    decreases items, 1
  {
    if |items| == 1 {
      assert items == [items[0]];
      LastItemRoundTrip(items[0], rest);
    } else {
      ItemsConsRoundTrip(items, rest);
    }
  }

  lemma {:induction false} LastItemRoundTrip(item: Json, rest: string)
    ensures ParseItems(SerializeItems([item]) + "]" + rest) == Some(([item], rest))
    decreases item, 4
  {
    var s := SerializeItems([item]) + "]" + rest;
    var tail := "]" + rest;
    assert ParseValue(s) == Some((item, tail)) by {
      assert s == Serialize(item) + tail;
      ValueRoundTrip(item, tail);
    }
    ItemsStepLast(s, item, tail);
    assert tail[1..] == rest;
  }

  lemma {:induction false} ItemsConsRoundTrip(items: seq<Json>, rest: string)
    requires |items| > 1
    ensures ParseItems(SerializeItems(items) + "]" + rest) == Some((items, rest))
    decreases items, 0
  {
    var s := SerializeItems(items) + "]" + rest;
    var more := SerializeItems(items[1..]) + "]" + rest;
    var tail := "," + more;
    assert ParseValue(s) == Some((items[0], tail)) by {
      assert s == Serialize(items[0]) + tail;
      ValueRoundTrip(items[0], tail);
    }
    assert ParseItems(tail[1..]) == Some((items[1..], rest)) by {
      assert tail[1..] == more;
      ItemsRoundTrip(items[1..], rest);
    }
    ItemsStepMore(s, items[0], tail, items[1..], rest);
    assert [items[0]] + items[1..] == items;
  }

  /** `ParseMember` on a quoted name, a colon and a value. */
  lemma MemberStep(s: string, key: string, afterKey: string, v: Json, tail: string)
    requires s != [] && s[0] == '"'
    requires ParseChars(s[1..]) == Some((key, afterKey))
    requires afterKey != [] && afterKey[0] == ':'
    requires ParseValue(afterKey[1..]) == Some((v, tail))
    ensures ParseMember(s) == Some((Field(key, v), tail))
  {
    assert SkipWs(s) == s;
    assert SkipWs(afterKey) == afterKey;
  }

  /** The text of a member followed by `tail`, split at the name's quotes. */
  lemma FieldText(f: Field, tail: string)
    ensures SerializeField(f) + tail == "\"" + (Escape(f.key) + "\"" + (":" + Serialize(f.value) + tail))
  {
  }

  lemma {:induction false} MemberRoundTrip(f: Field, tail: string)
    requires Delimits(tail)
    ensures ParseMember(SerializeField(f) + tail) == Some((f, tail))
    decreases f, 0
  {
    var value := Serialize(f.value) + tail;
    var afterKey := ":" + value;
    var body := Escape(f.key) + "\"" + afterKey;
    var s := SerializeField(f) + tail;
    assert s == "\"" + body by {
      FieldText(f, tail);
    }
    assert s[1..] == body;
    assert ParseChars(body) == Some((f.key, afterKey)) by {
      CharsRoundTrip(f.key, afterKey);
    }
    assert afterKey[1..] == value;
    assert ParseValue(value) == Some((f.value, tail)) by {
      ValueRoundTrip(f.value, tail);
    }
    MemberStep(s, f.key, afterKey, f.value, tail);
  }

  /** The text of a non-empty object body, split after its first member. */
  lemma FieldsText(fields: seq<Field>, rest: string)
    requires fields != []
    ensures SerializeFields(fields) + "}" + rest == SerializeField(fields[0]) + FieldsTail(fields, rest)
    ensures SerializeFields(fields)[0] == '"'
  {
  }

  function FieldsTail(fields: seq<Field>, rest: string): string
    requires fields != []
  {
    if |fields| == 1 then "}" + rest else "," + SerializeFields(fields[1..]) + "}" + rest
  }

  /** One step of `ParseFields`: a member followed by a comma and the
      remaining members. */
  lemma FieldsStepMore(s: string, f: Field, tail: string, fs: seq<Field>, rest: string)
    requires ParseMember(s) == Some((f, tail))
    requires tail != [] && tail[0] == ','
    requires ParseFields(tail[1..]) == Some((fs, rest))
    ensures ParseFields(s) == Some(([f] + fs, rest))
  {
    assert SkipWs(tail) == tail;
  }

  /** The last step of `ParseFields`: a member followed by the brace. */
  lemma FieldsStepLast(s: string, f: Field, tail: string)
    requires ParseMember(s) == Some((f, tail))
    requires tail != [] && tail[0] == '}'
    ensures ParseFields(s) == Some(([f], tail[1..]))
  {
    assert SkipWs(tail) == tail;
  }

  lemma {:induction false} FieldsRoundTrip(fields: seq<Field>, rest: string)
    requires fields != []
    ensures ParseFields(SerializeFields(fields) + "}" + rest) == Some((fields, rest))
    decreases fields, 1
  {
    if |fields| == 1 {
      assert fields == [fields[0]];
      LastFieldRoundTrip(fields[0], rest);
    } else {
      FieldsConsRoundTrip(fields, rest);
    }
  }

  lemma {:induction false} LastFieldRoundTrip(f: Field, rest: string)
    ensures ParseFields(SerializeFields([f]) + "}" + rest) == Some(([f], rest))
    decreases f, 1
  {
    var s := SerializeFields([f]) + "}" + rest;
    var tail := "}" + rest;
    assert ParseMember(s) == Some((f, tail)) by {
      assert s == SerializeField(f) + tail;
      MemberRoundTrip(f, tail);
    }
    FieldsStepLast(s, f, tail);
    assert tail[1..] == rest;
  }

  lemma {:induction false} FieldsConsRoundTrip(fields: seq<Field>, rest: string)
    requires |fields| > 1
    ensures ParseFields(SerializeFields(fields) + "}" + rest) == Some((fields, rest))
    decreases fields, 0
  {
    var s := SerializeFields(fields) + "}" + rest;
    var more := SerializeFields(fields[1..]) + "}" + rest;
    var tail := "," + more;
    assert ParseMember(s) == Some((fields[0], tail)) by {
      assert s == SerializeField(fields[0]) + tail;
      MemberRoundTrip(fields[0], tail);
    }
    assert ParseFields(tail[1..]) == Some((fields[1..], rest)) by {
      assert tail[1..] == more;
      FieldsRoundTrip(fields[1..], rest);
    }
    FieldsStepMore(s, fields[0], tail, fields[1..], rest);
    assert [fields[0]] + fields[1..] == fields;
  }

  /** `JSON.parse(JSON.stringify(j))` gives back `j`. */
  lemma RoundTrip(j: Json)
    ensures Parse(Serialize(j)) == Some(j)
  {
    ValueRoundTrip(j, []);
    assert Serialize(j) + [] == Serialize(j);
  }
}
