/** JSON.stringify, character by character, and a reader that recovers the value from its text. */
module JsonText {
  import opened JsonValues

  predicate NumberChar(c: char) {
    '0' <= c <= '9' || c == '-' || c == '+' || c == '.' || c == 'e'
  }

  /** A finite number by the text JSON.stringify gives it, which determines the number. */
  type Numeral = s: string |
    s != "" && ('0' <= s[0] <= '9' || s[0] == '-') && forall i :: 0 <= i < |s| ==> NumberChar(s[i])
    witness "0"

  type Printable = Figure<Numeral>

  type Value = Json<Printable>

  // ----- Strings -----

  const HEX := "0123456789abcdef"

  function EscapeChar(c: char): string {
    if c == '\"' then "\\\""
    else if c == '\\' then "\\\\"
    else if c == 8 as char then "\\b"
    else if c == 12 as char then "\\f"
    else if c == '\n' then "\\n"
    else if c == '\r' then "\\r"
    else if c == '\t' then "\\t"
    else if c < ' ' then "\\u00" + [HEX[c as int / 16], HEX[c as int % 16]]
    else [c]
  }

  function Escape(s: string): string {
    if s == "" then "" else EscapeChar(s[0]) + Escape(s[1..])
  }

  function Quote(s: string): string {
    "\"" + Escape(s) + "\""
  }

  /** A character is escaped exactly when it has to be, by two characters where there is such an escape, else by six, in
      lower case. */
  lemma EscapesAreShort(c: char)
    ensures |EscapeChar(c)| == 1 <==> c >= ' ' && c != '\"' && c != '\\'
    ensures |EscapeChar(c)| == 2 <==> c in {8 as char, 12 as char, '\n', '\r', '\t', '\"', '\\'}
    ensures |EscapeChar(c)| in {1, 2, 6}
    ensures |EscapeChar(c)| == 6 ==> forall i :: 0 <= i < 6 ==> !('A' <= EscapeChar(c)[i] <= 'Z')
  {
  }

  // ----- Values -----

  function Print(v: Value): (r: string)
    ensures r != ""
    decreases v
  {
    match v
    case Null => "null"
    case Bool(b) => if b then "true" else "false"
    case Number(n) => if n.Finite? then n.value else "null"
    case Text(s) => Quote(s)
    case Array(items) => "[" + PrintItems(items, "")
    case Object(fields) => "{" + PrintFields(fields, "")
  }

  /** The items from here on; `comma` separates them from what came before. */
  function PrintItems(items: seq<Value>, comma: string): (r: string)
    ensures r != ""
    decreases items
  {
    if items == [] then "]" else comma + (Print(items[0]) + PrintItems(items[1..], ","))
  }

  function PrintFields(fields: seq<Field<Printable>>, comma: string): (r: string)
    ensures r != ""
    decreases fields
  {
    if fields == [] then "}"
    else comma + (Quote(fields[0].key) + (":" + (Print(fields[0].value) + PrintFields(fields[1..], ","))))
  }

  // ----- What the text says about the value -----

  /** What may follow a value: the end, or a mark that no number contains. */
  ghost predicate Delimited(x: string) {
    x == "" || x[0] == ',' || x[0] == ']' || x[0] == '}'
  }

  /** The value as it is printed: infinite numbers are null. */
  function Shown(v: Value): Value
    decreases v
  {
    match v
    case Number(n) => if n.Finite? then v else Null
    case Array(items) => Array(ShownItems(items))
    case Object(fields) => Object(ShownFields(fields))
    case _ => v
  }

  function ShownItems(items: seq<Value>): (r: seq<Value>)
    ensures |r| == |items| && forall i :: 0 <= i < |items| ==> r[i] == Shown(items[i])
    decreases items
  {
    seq(|items|, i requires 0 <= i < |items| => Shown(items[i]))
  }

  function ShownFields(fields: seq<Field<Printable>>): (r: seq<Field<Printable>>)
    ensures |r| == |fields| && forall i :: 0 <= i < |fields| ==> r[i] == Field(fields[i].key, Shown(fields[i].value))
    decreases fields
  {
    seq(|fields|, i requires 0 <= i < |fields| => Field(fields[i].key, Shown(fields[i].value)))
  }

  // ----- Reading -----

  datatype Parsed<T> = Read(value: T, rest: string) | Malformed

  /** The value of a hexadecimal digit, 16 for anything else. */
  function HexValue(c: char): (n: nat)
    ensures n <= 16
  {
    if '0' <= c <= '9' then c as int - '0' as int
    else if 'a' <= c <= 'f' then c as int - 'a' as int + 10
    else if 'A' <= c <= 'F' then c as int - 'A' as int + 10
    else 16
  }

  /** Four hexadecimal digits; surrogates are no characters here. */
  function ReadCode(s: string): Parsed<char> {
    if |s| < 4 || (exists i :: 0 <= i < 4 && HexValue(s[i]) == 16) then Malformed
    else
      var code := ((HexValue(s[0]) * 16 + HexValue(s[1])) * 16 + HexValue(s[2])) * 16 + HexValue(s[3]);
      if 0xD800 <= code < 0xE000 then Malformed else Read(code as char, s[4..])
  }

  /** One character of a string. */
  function ReadChar(s: string): (r: Parsed<char>)
    ensures r.Read? ==> |r.rest| < |s|
  {
    if s == "" || s[0] == '\"' || s[0] < ' ' then Malformed
    else if s[0] != '\\' then Read(s[0], s[1..])
    else if |s| < 2 then Malformed
    else
      match s[1]
      case '\"' => Read('\"', s[2..])
      case '\\' => Read('\\', s[2..])
      case '/' => Read('/', s[2..])
      case 'b' => Read(8 as char, s[2..])
      case 'f' => Read(12 as char, s[2..])
      case 'n' => Read('\n', s[2..])
      case 'r' => Read('\r', s[2..])
      case 't' => Read('\t', s[2..])
      case 'u' => ReadCode(s[2..])
      case _ => Malformed
  }

  /** The rest of a string after its opening mark. */
  function ReadString(s: string): (r: Parsed<string>)
    ensures r.Read? ==> |r.rest| < |s|
    decreases |s|
  {
    if s != "" && s[0] == '\"' then Read("", s[1..])
    else match ReadChar(s)
      case Malformed => Malformed
      case Read(c, rest) =>
        match ReadString(rest)
        case Malformed => Malformed
        case Read(t, rest') => Read([c] + t, rest')
  }

  /** How many characters of a number come first. */
  function NumberLength(s: string): (n: nat)
    ensures n <= |s| && forall i :: 0 <= i < n ==> NumberChar(s[i])
  {
    if s != "" && NumberChar(s[0]) then 1 + NumberLength(s[1..]) else 0
  }

  function ReadNumber(s: string): Parsed<Numeral> {
    if s != "" && ('0' <= s[0] <= '9' || s[0] == '-') then
      var n: Numeral := s[..NumberLength(s)];
      Read(n, s[NumberLength(s)..])
    else Malformed
  }

  function ReadValue(s: string): (r: Parsed<Value>)
    ensures r.Read? ==> |r.rest| < |s|
    decreases |s|, 0
  {
    if s == "" then Malformed
    else if "null" <= s then Read(Null, s[4..])
    else if "true" <= s then Read(Bool(true), s[4..])
    else if "false" <= s then Read(Bool(false), s[5..])
    else if s[0] == '\"' then
      (match ReadString(s[1..])
       case Malformed => Malformed
       case Read(t, rest) => Read(Text(t), rest))
    else if s[0] == '[' then
      (match ReadItems(s[1..], true)
       case Malformed => Malformed
       case Read(items, rest) => Read(Array(items), rest))
    else if s[0] == '{' then
      (match ReadFields(s[1..], true)
       case Malformed => Malformed
       case Read(fields, rest) => Read(Object(fields), rest))
    else match ReadNumber(s)
      case Malformed => Malformed
      case Read(n, rest) => Read(Number(Finite(n)), rest)
  }

  /** The text without its comma; an item or field that is not the first needs one. */
  function AfterComma(s: string, first: bool): (r: Parsed<()>)
    ensures r.Read? ==> |r.rest| <= |s|
  {
    if first then Read((), s) else if s != "" && s[0] == ',' then Read((), s[1..]) else Malformed
  }

  /** The items of an array from here to its closing bracket. */
  function ReadItems(s: string, first: bool): (r: Parsed<seq<Value>>)
    ensures r.Read? ==> |r.rest| < |s|
    decreases |s|, 1
  {
    if s != "" && s[0] == ']' then Read([], s[1..])
    else match AfterComma(s, first)
      case Malformed => Malformed
      case Read(_, s') =>
        match ReadValue(s')
        case Malformed => Malformed
        case Read(v, rest) =>
          match ReadItems(rest, false)
          case Malformed => Malformed
          case Read(items, rest') => Read([v] + items, rest')
  }

  /** One field. */
  function ReadField(s: string): (r: Parsed<Field<Printable>>)
    ensures r.Read? ==> |r.rest| < |s|
    decreases |s|, 1
  {
    if s == "" || s[0] != '\"' then Malformed
    else match ReadString(s[1..])
      case Malformed => Malformed
      case Read(key, rest) =>
        if rest == "" || rest[0] != ':' then Malformed
        else match ReadValue(rest[1..])
          case Malformed => Malformed
          case Read(v, rest') => Read(Field(key, v), rest')
  }

  /** The fields of an object from here to its closing brace. */
  function ReadFields(s: string, first: bool): (r: Parsed<seq<Field<Printable>>>)
    ensures r.Read? ==> |r.rest| < |s|
    decreases |s|, 2
  {
    if s != "" && s[0] == '}' then Read([], s[1..])
    else match AfterComma(s, first)
      case Malformed => Malformed
      case Read(_, s') =>
        match ReadField(s')
        case Malformed => Malformed
        case Read(f, rest) =>
          match ReadFields(rest, false)
          case Malformed => Malformed
          case Read(fields, rest') => Read([f] + fields, rest')
  }

  // ----- What is printed is read back -----

  lemma Associate(a: string, b: string, c: string)
    ensures (a + b) + c == a + (b + c)
  {
  }

  lemma HexRead(i: nat)
    requires i < 16
    ensures HexValue(HEX[i]) == i
  {
  }

  lemma CodeRead(c: char, x: string)
    requires c < ' '
    ensures ReadCode("00" + [HEX[c as int / 16], HEX[c as int % 16]] + x) == Read(c, x)
  {
    var s := "00" + [HEX[c as int / 16], HEX[c as int % 16]] + x;
    HexRead(c as int / 16);
    HexRead(c as int % 16);
    assert s[0] == '0' && s[1] == '0' && s[2] == HEX[c as int / 16] && s[3] == HEX[c as int % 16];
    assert s[4..] == x;
    hide HEX;
    assert (c as int) / 16 * 16 + (c as int) % 16 == c as int;
  }

  lemma CharRead(c: char, x: string)
    ensures ReadChar(EscapeChar(c) + x) == Read(c, x)
  {
    var s := EscapeChar(c) + x;
    if |EscapeChar(c)| == 6 {
      assert s[2..] == "00" + [HEX[c as int / 16], HEX[c as int % 16]] + x;
      CodeRead(c, x);
    } else if |EscapeChar(c)| == 2 {
      assert s[2..] == x;
    } else {
      assert s[1..] == x;
    }
  }

  lemma {:induction false} StringRead(t: string, x: string)
    ensures ReadString(Escape(t) + "\"" + x) == Read(t, x)
  {
    hide EscapeChar, ReadChar;
    var s := Escape(t) + "\"" + x;
    if t == "" {
      assert s == "\"" + x;
      assert s[1..] == x;
    } else {
      var tail := Escape(t[1..]) + "\"" + x;
      Associate(EscapeChar(t[0]), Escape(t[1..]), "\"");
      Associate(EscapeChar(t[0]), Escape(t[1..]) + "\"", x);
      assert s == EscapeChar(t[0]) + tail;
      CharRead(t[0], tail);
      EscapeCharStart(t[0]);
      StringRead(t[1..], x);
      assert [t[0]] + t[1..] == t;
    }
  }

  lemma EscapeCharStart(c: char)
    ensures EscapeChar(c) != "" && EscapeChar(c)[0] != '\"'
  {
  }

  lemma QuoteTail(s: string, x: string)
    ensures (Quote(s) + x)[0] == '\"' && (Quote(s) + x)[1..] == Escape(s) + "\"" + x
  {
    hide Escape;
    Associate("\"", Escape(s), "\"");
    Associate("\"", Escape(s) + "\"", x);
  }

  lemma {:induction false} NumberEnds(n: string, x: string)
    requires Delimited(x) && forall i :: 0 <= i < |n| ==> NumberChar(n[i])
    ensures NumberLength(n + x) == |n|
  {
    if n != "" {
      assert (n + x)[1..] == n[1..] + x;
      NumberEnds(n[1..], x);
    }
  }

  lemma NumeralRead(n: Numeral, x: string)
    requires Delimited(x)
    ensures ReadValue(n + x) == Read(Number(Finite(n)), x)
  {
    var s := n + x;
    assert s[0] == n[0];
    NumberEnds(n, x);
    assert s[..|n|] == n && s[|n|..] == x;
    hide ReadString, ReadItems, ReadFields, NumberLength;
  }

  lemma WordsRead(x: string)
    ensures ReadValue("null" + x) == Read(Null, x)
    ensures ReadValue("true" + x) == Read(Bool(true), x)
    ensures ReadValue("false" + x) == Read(Bool(false), x)
  {
    assert ("null" + x)[4..] == x && ("true" + x)[4..] == x && ("false" + x)[5..] == x;
    assert ("null" + x)[0] == 'n' && ("true" + x)[0] == 't' && ("false" + x)[0] == 'f';
    hide ReadString, ReadItems, ReadFields, ReadNumber;
  }

  /** Whatever follows, a printed value is read back as it is shown, and reading stops where it ends. */
  lemma {:induction false} PrintRead(v: Value, x: string)
    requires Delimited(x)
    ensures ReadValue(Print(v) + x) == Read(Shown(v), x)
    decreases v
  {
    hide *;
    PrintIs(v);
    match v
    case Number(n) =>
      if n.Finite? {
        NumeralRead(n.value, x);
      } else {
        WordsRead(x);
      }
    case Text(s) =>
      QuoteTail(s, x);
      StringRead(s, x);
      TextRead(Quote(s) + x);
    case Array(items) =>
      ItemsRead(items, "", x);
      ArrayRead(PrintItems(items, ""), x);
      Associate("[", PrintItems(items, ""), x);
    case Object(fields) =>
      FieldsRead(fields, "", x);
      ObjectRead(PrintFields(fields, ""), x);
      Associate("{", PrintFields(fields, ""), x);
    case _ => WordsRead(x);
  }

  /** Print and Shown, case by case. */
  lemma PrintIs(v: Value)
    ensures v.Null? ==> Print(v) == "null" && Shown(v) == v
    ensures v.Bool? ==> Print(v) == (if v.b then "true" else "false") && Shown(v) == v
    ensures v.Number? && v.n.Finite? ==> Print(v) == v.n.value && Shown(v) == v
    ensures v.Number? && v.n.Infinite? ==> Print(v) == "null" && Shown(v) == Null
    ensures v.Text? ==> Print(v) == Quote(v.s) && Shown(v) == v
    ensures v.Array? ==> Print(v) == "[" + PrintItems(v.items, "") && Shown(v) == Array(ShownItems(v.items))
    ensures v.Object? ==> Print(v) == "{" + PrintFields(v.fields, "") && Shown(v) == Object(ShownFields(v.fields))
  {
    hide PrintItems, PrintFields, ShownItems, ShownFields, Quote;
  }

  lemma TextRead(s: string)
    requires s != "" && s[0] == '\"'
    ensures ReadValue(s) ==
      match ReadString(s[1..]) case Malformed => Malformed case Read(t, rest) => Read(Text(t), rest)
  {
    hide ReadString, ReadItems, ReadFields, ReadNumber;
  }

  lemma ArrayRead(p: string, x: string)
    ensures ReadValue("[" + (p + x)) ==
      match ReadItems(p + x, true) case Malformed => Malformed case Read(items, rest) => Read(Array(items), rest)
  {
    var s := "[" + (p + x);
    assert s[0] == '[' && s[1..] == p + x;
    hide ReadString, ReadItems, ReadFields, ReadNumber;
  }

  lemma ObjectRead(p: string, x: string)
    ensures ReadValue("{" + (p + x)) ==
      match ReadFields(p + x, true) case Malformed => Malformed case Read(fields, rest) => Read(Object(fields), rest)
  {
    var s := "{" + (p + x);
    assert s[0] == '{' && s[1..] == p + x;
    hide ReadString, ReadItems, ReadFields, ReadNumber;
  }

  lemma {:induction false} ItemsRead(items: seq<Value>, comma: string, x: string)
    requires comma in {"", ","}
    ensures ReadItems(PrintItems(items, comma) + x, comma == "") == Read(ShownItems(items), x)
    decreases items
  {
    if items == [] {
      assert ("]" + x)[0] == ']' && ("]" + x)[1..] == x;
    } else {
      hide *;
      var m, p := Print(items[0]), PrintItems(items[1..], ",");
      var s' := m + (p + x);
      ItemText(items, comma, x);
      FirstChar(items[0], p + x);
      CommaRead(comma, s', ']');
      MoreItems(items[1..], x);
      PrintRead(items[0], p + x);
      ItemsRead(items[1..], ",", x);
      ShownFirstItem(items);
      ItemsStep(comma + s', comma == "", s', Shown(items[0]), p + x, ShownItems(items[1..]), x);
    }
  }

  lemma ItemsStep(s: string, first: bool, s': string, v: Value, rest: string, items: seq<Value>, rest': string)
    requires s != "" && s[0] != ']' && AfterComma(s, first) == Read((), s')
    requires ReadValue(s') == Read(v, rest) && ReadItems(rest, false) == Read(items, rest')
    ensures ReadItems(s, first) == Read([v] + items, rest')
  {
    hide ReadValue, AfterComma;
  }

  lemma ItemText(items: seq<Value>, comma: string, x: string)
    requires items != []
    ensures PrintItems(items, comma) + x == comma + (Print(items[0]) + (PrintItems(items[1..], ",") + x))
  {
    hide Print;
    Associate(comma, Print(items[0]) + PrintItems(items[1..], ","), x);
    Associate(Print(items[0]), PrintItems(items[1..], ","), x);
  }

  lemma ShownFirstItem(items: seq<Value>)
    requires items != []
    ensures ShownItems(items) == [Shown(items[0])] + ShownItems(items[1..])
  {
    hide Shown;
    var r := [Shown(items[0])] + ShownItems(items[1..]);
    assert forall i :: 0 <= i < |items| ==> r[i] == ShownItems(items)[i];
  }

  lemma CommaRead(comma: string, s: string, closing: char)
    requires comma in {"", ","} && s != "" && s[0] != closing && closing != ','
    ensures AfterComma(comma + s, comma == "") == Read((), s)
    ensures (comma + s) != "" && (comma + s)[0] != closing
  {
    assert comma == "" ==> comma + s == s;
    assert comma == "," ==> (comma + s)[1..] == s;
  }

  lemma MoreItems(items: seq<Value>, x: string)
    ensures Delimited(PrintItems(items, ",") + x)
  {
  }

  lemma MoreFields(fields: seq<Field<Printable>>, x: string)
    ensures Delimited(PrintFields(fields, ",") + x)
  {
  }

  /** No value begins with a closing bracket. */
  lemma FirstChar(v: Value, x: string)
    ensures (Print(v) + x)[0] !in {']', '}', ','}
  {
  }

  lemma {:induction false} FieldsRead(fields: seq<Field<Printable>>, comma: string, x: string)
    requires comma in {"", ","}
    ensures ReadFields(PrintFields(fields, comma) + x, comma == "") == Read(ShownFields(fields), x)
    decreases fields
  {
    if fields == [] {
      assert ("}" + x)[0] == '}' && ("}" + x)[1..] == x;
    } else {
      hide *;
      var k, m, p := fields[0].key, Print(fields[0].value), PrintFields(fields[1..], ",");
      var s' := Quote(k) + (":" + (m + (p + x)));
      FieldText(fields, comma, x);
      QuoteTail(k, ":" + (m + (p + x)));
      CommaRead(comma, s', '}');
      MoreFields(fields[1..], x);
      PrintRead(fields[0].value, p + x);
      FieldRead(k, m + (p + x), Shown(fields[0].value), p + x);
      FieldsRead(fields[1..], ",", x);
      ShownFirst(fields);
      FieldsStep(comma + s', comma == "", s', Field(k, Shown(fields[0].value)), p + x, ShownFields(fields[1..]), x);
    }
  }

  lemma FieldsStep(s: string, first: bool, s': string, f: Field<Printable>, rest: string,
    fields: seq<Field<Printable>>, rest': string)
    requires s != "" && s[0] != '}' && AfterComma(s, first) == Read((), s')
    requires ReadField(s') == Read(f, rest) && ReadFields(rest, false) == Read(fields, rest')
    ensures ReadFields(s, first) == Read([f] + fields, rest')
  {
    hide ReadField, AfterComma;
  }

  lemma FieldRead(key: string, s: string, v: Value, rest: string)
    requires ReadValue(s) == Read(v, rest)
    ensures ReadField(Quote(key) + (":" + s)) == Read(Field(key, v), rest)
  {
    QuoteTail(key, ":" + s);
    StringRead(key, ":" + s);
    assert (":" + s)[1..] == s;
    hide ReadValue, ReadString, Quote, Escape;
  }

  lemma FieldText(fields: seq<Field<Printable>>, comma: string, x: string)
    requires fields != []
    ensures PrintFields(fields, comma) + x ==
      comma + (Quote(fields[0].key) + (":" + (Print(fields[0].value) + (PrintFields(fields[1..], ",") + x))))
  {
    hide Print, Quote;
    var k, m, p := Quote(fields[0].key), Print(fields[0].value), PrintFields(fields[1..], ",");
    Associate(comma, k + (":" + (m + p)), x);
    Associate(k, ":" + (m + p), x);
    Associate(":", m + p, x);
    Associate(m, p, x);
  }

  lemma ShownFirst(a: seq<Field<Printable>>)
    requires a != []
    ensures ShownFields(a) == [Field(a[0].key, Shown(a[0].value))] + ShownFields(a[1..])
  {
    hide Shown;
    var r := [Field(a[0].key, Shown(a[0].value))] + ShownFields(a[1..]);
    assert forall i :: 0 <= i < |a| ==> r[i] == ShownFields(a)[i];
  }

  /** Infinite numbers apart, print loses nothing, and it shows where it ends. */
  lemma PrintUnique(v: Value, w: Value, x: string, y: string)
    requires Print(v) + x == Print(w) + y && Delimited(x) && Delimited(y)
    ensures Shown(v) == Shown(w) && x == y
  {
    PrintRead(v, x);
    PrintRead(w, y);
    hide *;
  }

  /** And nothing else of the value shows. */
  lemma {:induction false} PrintShown(v: Value)
    ensures Print(Shown(v)) == Print(v)
    decreases v
  {
    match v
    case Array(items) => PrintItemsShown(items, "");
    case Object(fields) => PrintFieldsShown(fields, "");
    case _ =>
  }

  lemma {:induction false} PrintItemsShown(items: seq<Value>, comma: string)
    ensures PrintItems(ShownItems(items), comma) == PrintItems(items, comma)
    decreases items
  {
    if items != [] {
      PrintShown(items[0]);
      PrintItemsShown(items[1..], ",");
      assert ShownItems(items)[1..] == ShownItems(items[1..]);
    }
  }

  lemma {:induction false} PrintFieldsShown(fields: seq<Field<Printable>>, comma: string)
    ensures PrintFields(ShownFields(fields), comma) == PrintFields(fields, comma)
    decreases fields
  {
    if fields != [] {
      PrintShown(fields[0].value);
      PrintFieldsShown(fields[1..], ",");
      assert ShownFields(fields)[1..] == ShownFields(fields[1..]);
    }
  }
}
