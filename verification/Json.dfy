/** JSON values and their one-line text: the compact form JSON.stringify writes, and a parser
    for that form. Numbers are integers. */
module Json {
  import opened Text
  import opened Wrappers

  datatype Json =
    | JNull
    | JBool(b: bool)
    | JNum(n: int)
    | JStr(s: string)
    | JArr(items: seq<Json>)
    | JObj(fields: seq<(string, Json)>)

  // ---- Printing ----

  function HexChar(d: nat): char
    requires d < 16
  {
    if d < 10 then DigitChar(d) else (d - 10 + 'a' as int) as char
  }

  function EscapeChar(c: char): (e: string)
    ensures |e| > 0 && NoNewline(e)
    ensures e[0] != '\"'
  {
    if c == '\"' then "\\\""
    else if c == '\\' then "\\\\"
    else if c == '\n' then "\\n"
    else if c == '\r' then "\\r"
    else if c == '\t' then "\\t"
    else if c == '\U{0008}' then "\\b"
    else if c == '\U{000C}' then "\\f"
    else if c < ' ' then "\\u00" + [HexChar(c as int / 16), HexChar(c as int % 16)]
    else [c]
  }

  function Escape(s: string): string
  {
    if |s| == 0 then "" else EscapeChar(s[0]) + Escape(s[1..])
  }

  function PrintStr(s: string): string { "\"" + Escape(s) + "\"" }

  function PrintInt(n: int): string
  {
    if n < 0 then "-" + Decimal(-n) else Decimal(n)
  }

  /** JSON.stringify(j) */
  function Print(j: Json): string
    decreases j, 1
  {
    match j
    case JNull => "null"
    case JBool(b) => if b then "true" else "false"
    case JNum(n) => PrintInt(n)
    case JStr(s) => PrintStr(s)
    case JArr(items) => "[" + PrintItems(items) + "]"
    case JObj(fields) => "{" + PrintFields(fields) + "}"
  }

  function PrintItems(items: seq<Json>): string
    decreases items, 0
  {
    if |items| == 0 then ""
    else if |items| == 1 then Print(items[0])
    else Print(items[0]) + "," + PrintItems(items[1..])
  }

  function PrintField(f: (string, Json)): string
    decreases f, 2
  {
    PrintStr(f.0) + ":" + Print(f.1)
  }

  function PrintFields(fields: seq<(string, Json)>): string
    decreases fields, 0
  {
    if |fields| == 0 then ""
    else if |fields| == 1 then PrintField(fields[0])
    else PrintField(fields[0]) + "," + PrintFields(fields[1..])
  }

  // ---- Parsing: each parser returns the value read and the text left over ----

  predicate StartsWith(s: string, p: string) { |p| <= |s| && s[..|p|] == p }

  function HexValue(c: char): (v: Option<nat>)
    ensures v.Some? ==> v.value < 16
  {
    if IsDigit(c) then Some(DigitValue(c))
    else if 'a' <= c <= 'f' then Some(c as int - 'a' as int + 10)
    else if 'A' <= c <= 'F' then Some(c as int - 'A' as int + 10)
    else None
  }

  /** The character a four-digit escape denotes; surrogate halves are not characters here. */
  function HexEscape(s: string): Option<char>
    requires |s| == 4
  {
    var a, b, c, d := HexValue(s[0]), HexValue(s[1]), HexValue(s[2]), HexValue(s[3]);
    if a.None? || b.None? || c.None? || d.None? then None
    else
      var v := ((a.value * 16 + b.value) * 16 + c.value) * 16 + d.value;
      if 0xD800 <= v < 0xE000 then None else Some(v as char)
  }

  /** Four hexadecimal digits, most significant first; half a surrogate pair is no character. */
  lemma HexEscapeExactly(s: string)
    requires |s| == 4 && forall i | 0 <= i < 4 :: HexValue(s[i]).Some?
    ensures var v := 4096 * HexValue(s[0]).value + 256 * HexValue(s[1]).value + 16 * HexValue(s[2]).value
        + HexValue(s[3]).value;
      HexEscape(s) == if 0xD800 <= v <= 0xDFFF then None else Some(v as char)
  {
  }

  /** One character of a string literal, with the number of characters of text it took. */
  function ReadChar(s: string): (r: Option<(char, nat)>)
    requires |s| > 0
    ensures r.Some? ==> 0 < r.value.1 <= |s|
  {
    if s[0] != '\\' then (if s[0] < ' ' then None else Some((s[0], 1)))
    else if |s| < 2 then None
    else
      match s[1]
      case '\"' => Some(('\"', 2))
      case '\\' => Some(('\\', 2))
      case '/' => Some(('/', 2))
      case 'n' => Some(('\n', 2))
      case 'r' => Some(('\r', 2))
      case 't' => Some(('\t', 2))
      case 'b' => Some(('\U{0008}', 2))
      case 'f' => Some(('\U{000C}', 2))
      case 'u' =>
        if |s| < 6 then None
        else (match HexEscape(s[2..6]) case None => None case Some(c) => Some((c, 6)))
      case _ => None
  }

  /** The rest of a string literal, after its opening quote. */
  function ParseChars(s: string): (r: Option<(string, string)>)
    ensures r.Some? ==> |r.value.0| + |r.value.1| < |s|
    decreases |s|
  {
    if |s| == 0 then None
    else if s[0] == '\"' then Some(("", s[1..]))
    else match ReadChar(s)
      case None => None
      case Some((c, n)) =>
        match ParseChars(s[n..])
        case None => None
        case Some((rest, left)) => Some(([c] + rest, left))
  }

  function DigitRun(s: string): (n: nat)
    ensures n <= |s| && forall i | 0 <= i < n :: IsDigit(s[i])
    ensures n < |s| ==> !IsDigit(s[n])
  {
    if |s| == 0 || !IsDigit(s[0]) then 0 else
      var m := DigitRun(s[1..]);
      assert forall i | 0 < i < m + 1 :: s[i] == s[1..][i - 1];
      1 + m
  }

  function ParseNat(s: string): (r: Option<(nat, string)>)
    ensures r.Some? ==> |r.value.1| < |s|
  {
    var n := DigitRun(s);
    if n == 0 || (n > 1 && s[0] == '0') then None
    else Some((Numeric(s[..n]), s[n..]))
  }

  /** A numeral may not have a superfluous leading zero, and what follows its digits is left over. */
  lemma LeadingZero(s: string)
    requires |s| > 0 && s[0] == '0'
    ensures |s| > 1 && IsDigit(s[1]) ==> ParseNat(s) == None
    ensures |s| == 1 || !IsDigit(s[1]) ==> ParseNat(s) == Some((0, s[1..]))
  {
    if |s| > 1 { assert s[1..][0] == s[1]; }
    assert s[..1] == "0" && "0"[..0] == "";
  }

  function Negate(n: nat): int { 0 - n }

  function ParseNumber(s: string): (r: Option<(Json, string)>)
    ensures r.Some? ==> |r.value.1| < |s| && !r.value.0.JStr?
  {
    if |s| > 0 && s[0] == '-' then
      match ParseNat(s[1..]) case None => None case Some((n, left)) => Some((JNum(Negate(n)), left))
    else
      match ParseNat(s) case None => None case Some((n, left)) => Some((JNum(n), left))
  }

  function ParseValue(s: string): (r: Option<(Json, string)>)
    ensures r.Some? ==> |r.value.1| < |s|
    ensures r.Some? && r.value.0.JStr? ==> |r.value.0.s| + 2 <= |s|
    decreases |s|, 1
  {
    if |s| == 0 then None
    else if s[0] == 'n' then (if StartsWith(s, "null") then Some((JNull, s[4..])) else None)
    else if s[0] == 't' then (if StartsWith(s, "true") then Some((JBool(true), s[4..])) else None)
    else if s[0] == 'f' then (if StartsWith(s, "false") then Some((JBool(false), s[5..])) else None)
    else if s[0] == '\"' then
      (match ParseChars(s[1..]) case None => None case Some((t, left)) => Some((JStr(t), left)))
    else if s[0] == '[' then
      if |s| > 1 && s[1] == ']' then Some((JArr([]), s[2..]))
      else (match ParseItems(s[1..]) case None => None case Some((items, left)) => Some((JArr(items), left)))
    else if s[0] == '{' then
      if |s| > 1 && s[1] == '}' then Some((JObj([]), s[2..]))
      else (match ParseFields(s[1..]) case None => None case Some((fields, left)) => Some((JObj(fields), left)))
    else ParseNumber(s)
  }

  /** One or more array items and the closing bracket. */
  function ParseItems(s: string): (r: Option<(seq<Json>, string)>)
    ensures r.Some? ==> |r.value.1| < |s|
    decreases |s|, 2
  {
    match ParseValue(s)
    case None => None
    case Some((j, left)) =>
      if |left| == 0 then None
      else if left[0] == ']' then Some(([j], left[1..]))
      else if left[0] != ',' then None
      else match ParseItems(left[1..])
        case None => None
        case Some((items, left')) => Some(([j] + items, left'))
  }

  /** One object member: a string literal, a colon and a value. */
  function ParseField(s: string): (r: Option<((string, Json), string)>)
    ensures r.Some? ==> |r.value.1| < |s|
    decreases |s|, 2
  {
    if |s| == 0 || s[0] != '\"' then None
    else match ParseChars(s[1..])
      case None => None
      case Some((key, left)) =>
        if |left| == 0 || left[0] != ':' then None
        else match ParseValue(left[1..])
          case None => None
          case Some((j, left')) => Some(((key, j), left'))
  }

  /** One or more object members and the closing brace. */
  function ParseFields(s: string): (r: Option<(seq<(string, Json)>, string)>)
    ensures r.Some? ==> |r.value.1| < |s|
    decreases |s|, 3
  {
    match ParseField(s)
    case None => None
    case Some((f, left)) =>
      if |left| == 0 then None
      else if left[0] == '}' then Some(([f], left[1..]))
      else if left[0] != ',' then None
      else match ParseFields(left[1..])
        case None => None
        case Some((fields, left')) => Some(([f] + fields, left'))
  }

  /** JSON.parse(s); None stands for the SyntaxError. */
  function Parse(s: string): (r: Option<Json>)
  {
    match ParseValue(s)
    case Some((j, "")) => Some(j)
    case _ => None
  }

  // ---- Round trip ----

  lemma EscapeCharRead(c: char, rest: string)
    ensures var e := EscapeChar(c); ReadChar(e + rest) == Some((c, |e|)) && (e + rest)[|e|..] == rest
  {
    var e := EscapeChar(c);
    if e[0] == '\\' && e[1] == 'u' {
      assert (e + rest)[2..6] == "00" + [HexChar(c as int / 16), HexChar(c as int % 16)];
    }
  }

  lemma {:induction false} EscapeParse(s: string, rest: string)
    ensures ParseChars(Escape(s) + "\"" + rest) == Some((s, rest))
  {
    if |s| == 0 {
      assert Escape(s) + "\"" + rest == "\"" + rest;
    } else {
      var tail := Escape(s[1..]) + "\"" + rest;
      EscapeCharRead(s[0], tail);
      EscapeParse(s[1..], rest);
      assert Escape(s) + "\"" + rest == EscapeChar(s[0]) + tail;
      assert [s[0]] + s[1..] == s;
    }
  }

  lemma StrParse(s: string, rest: string)
    ensures |PrintStr(s) + rest| > 0 && (PrintStr(s) + rest)[0] == '\"'
    ensures ParseChars((PrintStr(s) + rest)[1..]) == Some((s, rest))
  {
    EscapeParse(s, rest);
    hide ParseChars;
    assert (PrintStr(s) + rest)[1..] == Escape(s) + "\"" + rest;
  }

  predicate NoDigitFirst(s: string) { |s| > 0 ==> !IsDigit(s[0]) }

  lemma {:induction false} DigitRunAll(s: string, rest: string)
    requires forall i | 0 <= i < |s| :: IsDigit(s[i])
    requires NoDigitFirst(rest)
    ensures DigitRun(s + rest) == |s|
  {
    if |s| == 0 {
      assert s + rest == rest;
    } else {
      assert (s + rest)[1..] == s[1..] + rest;
      DigitRunAll(s[1..], rest);
    }
  }

  lemma NatParse(n: nat, rest: string)
    requires NoDigitFirst(rest)
    ensures ParseNat(Decimal(n) + rest) == Some((n, rest))
  {
    var d := Decimal(n);
    NumericDecimal(n);
    DigitRunAll(d, rest);
    assert (d + rest)[..|d|] == d && (d + rest)[|d|..] == rest;
  }

  lemma PlainNumber(s: string, n: nat, rest: string)
    requires |s| > 0 && IsDigit(s[0]) && ParseNat(s) == Some((n, rest))
    ensures ParseValue(s) == Some((JNum(n), rest))
  {
    hide ParseNat;
  }

  lemma NegativeNumber(s: string, n: nat, rest: string)
    requires |s| > 0 && s[0] == '-' && ParseNat(s[1..]) == Some((n, rest))
    ensures ParseValue(s) == Some((JNum(Negate(n)), rest))
  {
    hide ParseNat;
  }

  lemma NumberParse(n: int, rest: string)
    requires NoDigitFirst(rest)
    ensures ParseValue(PrintInt(n) + rest) == Some((JNum(n), rest))
  {
    hide ParseNat, ParseValue, Decimal;
    var s := PrintInt(n) + rest;
    if n < 0 {
      NatParse(-n, rest);
      assert s[1..] == Decimal(-n) + rest;
      NegativeNumber(s, -n, rest);
    } else {
      NatParse(n, rest);
      PlainNumber(s, n, rest);
    }
  }

  lemma PrintFirst(j: Json)
    ensures |Print(j)| > 0 && Print(j)[0] != ']' && Print(j)[0] != '}'
  {
  }

  lemma Regroup(a: string, b: string, c: string)
    ensures a + b + c == a + (b + c)
  {
  }

  lemma BracketText(body: string, rest: string)
    requires |body| > 0 && body[0] != ']'
    requires ParseItems(body + "]" + rest).Some?
    ensures var r := ParseItems(body + "]" + rest).value;
      ParseValue("[" + body + "]" + rest) == Some((JArr(r.0), r.1))
  {
    var s := "[" + body + "]" + rest;
    assert s[1..] == body + "]" + rest;
  }

  lemma ItemsFirst(items: seq<Json>)
    requires |items| > 0
    ensures |PrintItems(items)| > 0 && PrintItems(items)[0] != ']'
  {
    PrintFirst(items[0]);
  }

  lemma ArrayText(items: seq<Json>, rest: string)
    requires |items| > 0
    requires ParseItems(PrintItems(items) + "]" + rest) == Some((items, rest))
    ensures ParseValue(Print(JArr(items)) + rest) == Some((JArr(items), rest))
  {
    hide ParseItems, ParseValue, PrintItems;
    ItemsFirst(items);
    BracketText(PrintItems(items), rest);
  }

  lemma FieldsFirst(fields: seq<(string, Json)>)
    requires |fields| > 0
    ensures |PrintFields(fields)| > 0 && PrintFields(fields)[0] == '\"'
  {
    assert PrintStr(fields[0].0)[0] == '\"';
  }

  lemma ObjectText(fields: seq<(string, Json)>, rest: string)
    requires |fields| > 0
    requires ParseFields(PrintFields(fields) + "}" + rest) == Some((fields, rest))
    ensures ParseValue(Print(JObj(fields)) + rest) == Some((JObj(fields), rest))
  {
    hide ParseFields, ParseValue, PrintFields;
    FieldsFirst(fields);
    BraceText(PrintFields(fields), rest);
  }

  lemma BraceText(body: string, rest: string)
    requires |body| > 0 && body[0] == '\"'
    requires ParseFields(body + "}" + rest).Some?
    ensures var r := ParseFields(body + "}" + rest).value;
      ParseValue("{" + body + "}" + rest) == Some((JObj(r.0), r.1))
  {
    var s := "{" + body + "}" + rest;
    assert s[1..] == body + "}" + rest;
  }

  lemma {:induction false} ValueRoundTrip(j: Json, rest: string)
    requires NoDigitFirst(rest)
    ensures ParseValue(Print(j) + rest) == Some((j, rest))
    decreases j, 1
  {
    var s := Print(j) + rest;
    match j
    case JNull => assert s[..4] == "null" && s[4..] == rest;
    case JBool(b) =>
      if b { assert s[..4] == "true" && s[4..] == rest; } else { assert s[..5] == "false" && s[5..] == rest; }
    case JNum(n) => NumberParse(n, rest);
    case JStr(t) => StrParse(t, rest);
    case JArr(items) =>
      if |items| == 0 {
        assert s == "[]" + rest && s[2..] == rest;
      } else {
        ItemsRoundTrip(items, rest);
        ArrayText(items, rest);
      }
    case JObj(fields) =>
      if |fields| == 0 {
        assert s == "{}" + rest && s[2..] == rest;
      } else {
        FieldsRoundTrip(fields, rest);
        ObjectText(fields, rest);
      }
  }

  /** Text of two parts, a separator and a closing part, grouped as the parsers meet it. */
  lemma Separated(first: string, more: string, close: string, rest: string)
    ensures (first + "," + more) + close + rest == first + ("," + (more + close + rest))
    ensures ("," + (more + close + rest))[1..] == more + close + rest
  {
  }

  lemma ItemsStep(s: string, j: Json, t: string, items: seq<Json>, left: string)
    requires ParseValue(s) == Some((j, t)) && |t| > 0 && t[0] == ','
    requires ParseItems(t[1..]) == Some((items, left))
    ensures ParseItems(s) == Some(([j] + items, left))
  {
  }

  lemma FieldsStep(s: string, f: (string, Json), t: string, fields: seq<(string, Json)>, left: string)
    requires ParseField(s) == Some((f, t)) && |t| > 0 && t[0] == ','
    requires ParseFields(t[1..]) == Some((fields, left))
    ensures ParseFields(s) == Some(([f] + fields, left))
  {
  }

  lemma {:induction false} ItemsRoundTrip(items: seq<Json>, rest: string)
    requires |items| > 0
    ensures ParseItems(PrintItems(items) + "]" + rest) == Some((items, rest))
    decreases items, 0
  {
    var first, more := Print(items[0]), PrintItems(items[1..]);
    if |items| == 1 {
      var t := "]" + rest;
      ValueRoundTrip(items[0], t);
      Regroup(first, "]", rest);
      assert items == [items[0]] && t[1..] == rest;
    } else {
      var t := "," + (more + "]" + rest);
      ValueRoundTrip(items[0], t);
      ItemsRoundTrip(items[1..], rest);
      Separated(first, more, "]", rest);
      ItemsStep(first + t, items[0], t, items[1..], rest);
      assert PrintItems(items) == first + "," + more;
      assert items == [items[0]] + items[1..];
    }
  }

  lemma {:induction false} FieldRoundTrip(f: (string, Json), rest: string)
    requires NoDigitFirst(rest)
    ensures ParseField(PrintField(f) + rest) == Some((f, rest))
    decreases f, 2
  {
    var value := Print(f.1) + rest;
    var t := ":" + value;
    StrParse(f.0, t);
    ValueRoundTrip(f.1, rest);
    assert PrintStr(f.0) + ":" + Print(f.1) + rest == PrintStr(f.0) + t;
    assert t[1..] == value;
  }

  lemma {:induction false} FieldsRoundTrip(fields: seq<(string, Json)>, rest: string)
    requires |fields| > 0
    ensures ParseFields(PrintFields(fields) + "}" + rest) == Some((fields, rest))
    decreases fields, 0
  {
    var first, more := PrintField(fields[0]), PrintFields(fields[1..]);
    if |fields| == 1 {
      var t := "}" + rest;
      FieldRoundTrip(fields[0], t);
      Regroup(first, "}", rest);
      assert fields == [fields[0]] && t[1..] == rest;
    } else {
      var t := "," + (more + "}" + rest);
      FieldRoundTrip(fields[0], t);
      FieldsRoundTrip(fields[1..], rest);
      Separated(first, more, "}", rest);
      FieldsStep(first + t, fields[0], t, fields[1..], rest);
      assert PrintFields(fields) == first + "," + more;
      assert fields == [fields[0]] + fields[1..];
    }
  }

  /** JSON.parse undoes JSON.stringify, for every value. */
  lemma ParsePrint(j: Json)
    ensures Parse(Print(j)) == Some(j)
  {
    ValueRoundTrip(j, "");
    assert Print(j) + "" == Print(j);
  }

  lemma PrintInjective(a: Json, b: Json)
    requires Print(a) == Print(b)
    ensures a == b
  {
    ParsePrint(a);
    ParsePrint(b);
  }

  // ---- One line per value ----

  lemma {:induction false} EscapeOneLine(s: string)
    ensures NoNewline(Escape(s))
  {
    if |s| > 0 { EscapeOneLine(s[1..]); }
  }

  lemma {:induction false} PrintOneLine(j: Json)
    ensures NoNewline(Print(j))
    decreases j, 1
  {
    match j
    case JStr(s) => EscapeOneLine(s);
    case JArr(items) => ItemsOneLine(items);
    case JObj(fields) => FieldsOneLine(fields);
    case _ =>
  }

  lemma {:induction false} ItemsOneLine(items: seq<Json>)
    ensures NoNewline(PrintItems(items))
    decreases items, 0
  {
    if |items| > 0 {
      PrintOneLine(items[0]);
      if |items| > 1 { ItemsOneLine(items[1..]); }
    }
  }

  lemma {:induction false} FieldOneLine(f: (string, Json))
    ensures NoNewline(PrintField(f))
    decreases f, 2
  {
    EscapeOneLine(f.0);
    PrintOneLine(f.1);
  }

  lemma {:induction false} FieldsOneLine(fields: seq<(string, Json)>)
    ensures NoNewline(PrintFields(fields))
    decreases fields, 0
  {
    if |fields| > 0 {
      FieldOneLine(fields[0]);
      if |fields| > 1 { FieldsOneLine(fields[1..]); }
    }
  }

  /** Trimming leaves the text of an object as it is: it starts and ends with a brace. */
  lemma TrimObject(fields: seq<(string, Json)>)
    ensures var t := Print(JObj(fields)); Trim(t) == t && t != ""
  {
    var t := Print(JObj(fields));
    assert t[0] == '{' && t[|t| - 1] == '}';
  }
}
