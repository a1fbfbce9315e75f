/** The flat text of the generated types, and a parser that shows it can be read in one way. */
module WireText {
  import opened Common
  import opened Decimals
  import opened JsonValue
  import opened WireTypes

  // ---------------------------------------------------------------- constants and names

  function HexDigit(n: nat): char
    requires n < 16
  {
    "0123456789abcdef"[n]
  }

  function Hex4(n: nat): string
    requires n < 0x1_0000
  {
    [HexDigit(n / 0x1000), HexDigit(n / 0x100 % 16), HexDigit(n / 0x10 % 16), HexDigit(n % 16)]
  }

  /** One character inside a JSON string, ASCII only. */
  function EscapeChar(c: char): string {
    var n := c as int;
    if c == '"' then "\\\""
    else if c == '\\' then "\\\\"
    else if c == '\n' then "\\n"
    else if c == '\r' then "\\r"
    else if c == '\t' then "\\t"
    else if n == 8 then "\\b"
    else if n == 12 then "\\f"
    else if ' ' <= c <= '~' then [c]
    else if n < 0x1_0000 then "\\u" + Hex4(n)
    else EscapePair(n - 0x1_0000)
  }

  /** A character beyond the first 65536, as two escapes. */
  function EscapePair(n: nat): string
    requires n < 0x10_0000
  {
    "\\u" + Hex4(0xd800 + n / 0x400) + "\\u" + Hex4(0xdc00 + n % 0x400)
  }

  function Escape(s: string): string { if s == [] then [] else EscapeChar(s[0]) + Escape(s[1..]) }

  function Quoted(s: string): string { "\"" + Escape(s) + "\"" }

  /** The constants whose text is modelled: null, booleans, strings, whole numbers, and arrays of
      such constants. */
  predicate Plain(c: Json) {
    match c
    case JNull => true
    case JBool(_) => true
    case JNum(n) => n == n.Floor as real
    case JStr(_) => true
    case JArr(items) => forall x <- items :: Plain(x)
    case JObj(_) => false
  }

  function Dump(c: Json): string
    requires Plain(c)
  {
    match c
    case JNull => "null"
    case JBool(b) => if b then "true" else "false"
    case JNum(n) => DumpInt(n.Floor)
    case JStr(s) => Quoted(s)
    case JArr(items) => "[" + DumpItems(items) + "]"
  }

  function DumpItems(items: seq<Json>): string
    requires forall x <- items :: Plain(x)
  {
    if |items| == 0 then ""
    else if |items| == 1 then Dump(items[0])
    else Dump(items[0]) + (", " + DumpItems(items[1..]))
  }

  function DumpInt(n: int): string { if n < 0 then "-" + Decimal(-n) else Decimal(n) }

  function Join(separator: string, parts: seq<string>): string {
    if |parts| == 0 then ""
    else if |parts| == 1 then parts[0]
    else parts[0] + separator + Join(separator, parts[1..])
  }

  // ---------------------------------------------------------------- the generator

  predicate IsNameChar(c: char) {
    'a' <= c <= 'z' || 'A' <= c <= 'Z' || '0' <= c <= '9' || c == '_' || c == '$'
  }

  /** The words the printed language uses itself. */
  const RESERVED := {"string", "number", "boolean", "null", "unknown", "true", "false"}

  /** A name that is not a number, a keyword or punctuation. */
  predicate IsTypeName(name: string) {
    name != [] && (forall c <- name :: IsNameChar(c)) && !('0' <= name[0] <= '9') && name !in RESERVED
  }

  /** What the generator is used on: plain constants, unions and enumerations that are not
      empty, and definitions with ordinary names. */
  predicate Printable(s: Schema) {
    && (s.ref.Some? ==> IsTypeName(AfterLastSlash(s.ref.value)))
    && (s.constant.Some? ==> Plain(s.constant.value))
    && (s.enumeration.Some? ==> s.enumeration.value != [] && forall c <- s.enumeration.value :: Plain(c))
    && (s.anyOf.Parts? ==> s.anyOf.list != [] && forall part <- s.anyOf.list :: Printable(part))
    && (s.oneOf.Parts? ==> s.oneOf.list != [] && forall part <- s.oneOf.list :: Printable(part))
    && (s.items.Some? ==> Printable(s.items.value))
    && (s.properties.Properties? ==> forall p <- s.properties.list :: Printable(p.schema))
    && (s.additional.Constrained? ==> Printable(s.additional.schema))
  }

  function Dumps(cs: seq<Json>): seq<string>
    requires forall c <- cs :: Plain(c)
  {
    if cs == [] then [] else [Dump(cs[0])] + Dumps(cs[1..])
  }

  function Texts(parts: seq<Schema>): seq<string>
    requires forall part <- parts :: Printable(part)
  {
    if parts == [] then [] else [TsType(parts[0])] + Texts(parts[1..])
  }

  function FieldTexts(ps: seq<Property>): seq<string>
    requires forall p <- ps :: Printable(p.schema)
  {
    if ps == [] then []
    else [Quoted(ps[0].name) + ": " + TsType(ps[0].schema) + ";"] + FieldTexts(ps[1..])
  }

  function TsType(s: Schema): string
    requires Printable(s)
  {
    if s.ref.Some? then AfterLastSlash(s.ref.value)
    else if s.constant.Some? then Dump(s.constant.value)
    else if s.enumeration.Some? then Join(" | ", Dumps(s.enumeration.value))
    else if s.anyOf.Parts? then Join(" | ", Texts(s.anyOf.list))
    else if s.oneOf.Parts? then Join(" | ", Texts(s.oneOf.list))
    else if s.kind == Some(One("array")) then
      "Array<" + (if s.items.Some? then TsType(s.items.value) else "unknown") + ">"
    else if s.kind == Some(One("object")) then
      if s.properties.Properties? then "{\n  " + Join("\n  ", FieldTexts(s.properties.list)) + "\n}"
      else "Record<string, " + (match s.additional
                                case NoAdditional => "unknown"
                                case Allowed(_) => "unknown"
                                case Constrained(a) => TsType(a)) + ">"
    else if s.kind == Some(One("string")) then "string"
    else if s.kind == Some(One("integer")) || s.kind == Some(One("number")) then "number"
    else if s.kind == Some(One("boolean")) then "boolean"
    else if s.kind == Some(One("null")) then "null"
    else "unknown"
  }

  // ---------------------------------------------------------------- unions, flattened

  datatype Basic = Text | Numeric | Bool | Anything

  datatype Entry = Entry(name: string, alts: seq<Alt>)

  /** One alternative of a union that contains no further union. */
  datatype Alt =
    | Alias(name: string)
    | Value(value: Json)
    | OfBasic(basic: Basic)
    | ListOf(alts: seq<Alt>)
    | MapOf(values: seq<Alt>)
    | Shape(entries: seq<Entry>)

  function AltsOfAll(ts: seq<Ty>): seq<Alt> {
    if ts == [] then [] else Alts(ts[0]) + AltsOfAll(ts[1..])
  }

  function EntriesOf(fs: seq<Field>): seq<Entry> {
    if fs == [] then [] else [Entry(fs[0].name, Alts(fs[0].ty))] + EntriesOf(fs[1..])
  }

  /** The alternatives of a type, with unions of unions laid flat. */
  function Alts(t: Ty): seq<Alt> {
    match t
    case Named(name) => [Alias(name)]
    case Literal(c) => [Value(c)]
    case Union(parts) => AltsOfAll(parts)
    case Array(e) => [ListOf(Alts(e))]
    case Object(fields) => [Shape(EntriesOf(fields))]
    case Record(e) => [MapOf(Alts(e))]
    case String => [OfBasic(Text)]
    case Number => [OfBasic(Numeric)]
    case Boolean => [OfBasic(Bool)]
    case Null => [Value(JNull)]
    case Unknown => [OfBasic(Anything)]
  }

  ghost predicate Belongs(r: Reading, fuel: nat, v: Json, a: Alt)
    decreases a
  {
    match a
    case Alias(name) => Inhabits(r, fuel, v, Named(name))
    case Value(c) => v == c
    case OfBasic(Text) => v.JStr?
    case OfBasic(Numeric) => v.JNum?
    case OfBasic(Bool) => v.JBool?
    case OfBasic(Anything) => true
    case ListOf(alts) => v.JArr? && forall x <- v.items :: exists b <- alts :: Belongs(r, fuel, x, b)
    case MapOf(alts) => v.JObj? && forall k <- v.fields :: exists b <- alts :: Belongs(r, fuel, v.fields[k], b)
    case Shape(entries) =>
      v.JObj? && forall e <- entries ::
        e.name in v.fields && exists b <- e.alts :: Belongs(r, fuel, v.fields[e.name], b)
  }

  ghost predicate BelongsToOne(r: Reading, fuel: nat, v: Json, alts: seq<Alt>) {
    exists b <- alts :: Belongs(r, fuel, v, b)
  }

  lemma {:induction false} BelongsToSingle(r: Reading, fuel: nat, v: Json, a: Alt)
    ensures BelongsToOne(r, fuel, v, [a]) <==> Belongs(r, fuel, v, a)
  {
    assert [a][0] == a;
  }

  /** Laying unions flat changes no type's values. */
  lemma {:induction false} FlatteningKeepsMembers(r: Reading, fuel: nat, v: Json, t: Ty)
    ensures Inhabits(r, fuel, v, t) <==> BelongsToOne(r, fuel, v, Alts(t))
    decreases t, 1
  {
    match t
    case Union(parts) => UnionKeepsMembers(r, fuel, v, parts);
    case Array(e) => ArrayKeepsMembers(r, fuel, v, e);
    case Record(e) => RecordKeepsMembers(r, fuel, v, e);
    case Object(fields) =>
      if v.JObj? {
        EntriesKeepMembers(r, fuel, v, fields);
      }
      BelongsToSingle(r, fuel, v, Shape(EntriesOf(fields)));
    case _ => BelongsToSingle(r, fuel, v, Alts(t)[0]);
  }

  lemma {:induction false} ArrayKeepsMembers(r: Reading, fuel: nat, v: Json, e: Ty)
    ensures Inhabits(r, fuel, v, Array(e)) <==> BelongsToOne(r, fuel, v, Alts(Array(e)))
    decreases e, 2
  {
    if v.JArr? {
      forall x <- v.items ensures Inhabits(r, fuel, x, e) <==> BelongsToOne(r, fuel, x, Alts(e)) {
        FlatteningKeepsMembers(r, fuel, x, e);
      }
    }
    BelongsToSingle(r, fuel, v, ListOf(Alts(e)));
  }

  lemma {:induction false} RecordKeepsMembers(r: Reading, fuel: nat, v: Json, e: Ty)
    ensures Inhabits(r, fuel, v, Record(e)) <==> BelongsToOne(r, fuel, v, Alts(Record(e)))
    decreases e, 2
  {
    if v.JObj? {
      forall k <- v.fields ensures Inhabits(r, fuel, v.fields[k], e) <==> BelongsToOne(r, fuel, v.fields[k], Alts(e)) {
        FlatteningKeepsMembers(r, fuel, v.fields[k], e);
      }
    }
    BelongsToSingle(r, fuel, v, MapOf(Alts(e)));
  }

  lemma {:induction false} UnionKeepsMembers(r: Reading, fuel: nat, v: Json, parts: seq<Ty>)
    ensures Inhabits(r, fuel, v, Union(parts)) <==> BelongsToOne(r, fuel, v, AltsOfAll(parts))
    decreases parts, 0
  {
    if parts != [] {
      FlatteningKeepsMembers(r, fuel, v, parts[0]);
      UnionKeepsMembers(r, fuel, v, parts[1..]);
      assert parts == [parts[0]] + parts[1..];
      assert AltsOfAll(parts) == Alts(parts[0]) + AltsOfAll(parts[1..]);
    }
  }

  lemma {:induction false} EntriesKeepMembers(r: Reading, fuel: nat, v: Json, fs: seq<Field>)
    requires v.JObj?
    ensures Inhabits(r, fuel, v, Object(fs)) <==> Belongs(r, fuel, v, Shape(EntriesOf(fs)))
    decreases fs, 0
  {
    if fs != [] {
      if fs[0].name in v.fields {
        FlatteningKeepsMembers(r, fuel, v.fields[fs[0].name], fs[0].ty);
      }
      EntriesKeepMembers(r, fuel, v, fs[1..]);
      assert fs == [fs[0]] + fs[1..];
      var es := EntriesOf(fs);
      assert es == [Entry(fs[0].name, Alts(fs[0].ty))] + EntriesOf(fs[1..]);
      assert Belongs(r, fuel, v, Shape(es)) <==>
        (es[0].name in v.fields && BelongsToOne(r, fuel, v.fields[es[0].name], es[0].alts))
        && Belongs(r, fuel, v, Shape(EntriesOf(fs[1..])));
    }
  }

  // ---------------------------------------------------------------- the text of alternatives

  predicate WellFormed(a: Alt) {
    match a
    case Alias(name) => IsTypeName(name)
    case Value(c) => Plain(c)
    case OfBasic(_) => true
    case ListOf(alts) => alts != [] && forall b <- alts :: WellFormed(b)
    case MapOf(alts) => alts != [] && forall b <- alts :: WellFormed(b)
    case Shape(entries) => forall e <- entries :: e.alts != [] && forall b <- e.alts :: WellFormed(b)
  }

  predicate AllWellFormed(alts: seq<Alt>) { alts != [] && forall b <- alts :: WellFormed(b) }

  function PrintAlt(a: Alt): string
    requires WellFormed(a)
    decreases a, 0
  {
    match a
    case Alias(name) => name
    case Value(c) => Dump(c)
    case OfBasic(Text) => "string"
    case OfBasic(Numeric) => "number"
    case OfBasic(Bool) => "boolean"
    case OfBasic(Anything) => "unknown"
    case ListOf(alts) => "Array<" + PrintAlts(alts) + ">"
    case MapOf(alts) => "Record<string, " + PrintAlts(alts) + ">"
    case Shape(entries) => "{\n  " + PrintEntries(entries) + "\n}"
  }

  function PrintAlts(alts: seq<Alt>): string
    requires AllWellFormed(alts)
    decreases alts
  {
    if |alts| == 1 then PrintAlt(alts[0]) else PrintAlt(alts[0]) + (" | " + PrintAlts(alts[1..]))
  }

  function PrintEntries(entries: seq<Entry>): string
    requires forall e <- entries :: AllWellFormed(e.alts)
    decreases entries
  {
    if entries == [] then ""
    else
      if |entries| == 1 then PrintEntry(entries[0])
      else PrintEntry(entries[0]) + ("\n  " + PrintEntries(entries[1..]))
  }

  function PrintEntry(e: Entry): string
    requires AllWellFormed(e.alts)
    decreases e
  {
    Quoted(e.name) + ": " + PrintAlts(e.alts) + ";"
  }

  lemma {:induction false} PrintAltsAppend(a: seq<Alt>, b: seq<Alt>)
    requires AllWellFormed(a) && AllWellFormed(b)
    ensures AllWellFormed(a + b) && PrintAlts(a + b) == PrintAlts(a) + " | " + PrintAlts(b)
  {
    assert (a + b)[1..] == a[1..] + b;
    if |a| > 1 {
      PrintAltsAppend(a[1..], b);
    }
  }

  /** The generator's text is the text of the flattened alternatives. */
  lemma {:induction false} TextIsFlat(s: Schema)
    requires Printable(s)
    ensures AllWellFormed(Alts(TypeOf(s))) && TsType(s) == PrintAlts(Alts(TypeOf(s)))
    decreases s
  {
    if s.ref.Some? || s.constant.Some? {
    } else if s.enumeration.Some? {
      EnumerationIsFlat(s.enumeration.value);
    } else if s.anyOf.Parts? {
      PartsAreFlat(s.anyOf.list);
    } else if s.oneOf.Parts? {
      PartsAreFlat(s.oneOf.list);
    } else {
      TypedIsFlat(s);
    }
  }

  lemma {:induction false} TypedIsFlat(s: Schema)
    requires Printable(s)
    requires s.ref.None? && s.constant.None? && s.enumeration.None? && s.anyOf.NoParts? && s.oneOf.NoParts?
    ensures AllWellFormed(Alts(TypeOf(s))) && TsType(s) == PrintAlts(Alts(TypeOf(s)))
    decreases s, 0
  {
    var a := Alts(TypeOf(s))[0];
    if s.kind == Some(One("array")) {
      if s.items.Some? {
        TextIsFlat(s.items.value);
      }
      PrintSingle(a);
    } else if s.kind == Some(One("object")) {
      if s.properties.Properties? {
        FieldsAreFlat(s.properties.list);
      } else if s.additional.Constrained? {
        TextIsFlat(s.additional.schema);
      }
      PrintSingle(a);
    } else {
      PrintSingle(a);
    }
  }

  lemma {:induction false} PrintSingle(a: Alt)
    requires WellFormed(a)
    ensures AllWellFormed([a]) && PrintAlts([a]) == PrintAlt(a)
  {
  }

  lemma {:induction false} EnumerationIsFlat(cs: seq<Json>)
    requires cs != [] && forall c <- cs :: Plain(c)
    ensures var alts := AltsOfAll(Map((c: Json) => Literal(c), cs));
            AllWellFormed(alts) && Join(" | ", Dumps(cs)) == PrintAlts(alts)
  {
    var ts := Map((c: Json) => Literal(c), cs);
    assert ts[1..] == Map((c: Json) => Literal(c), cs[1..]);
    assert AltsOfAll(ts) == [Value(cs[0])] + AltsOfAll(ts[1..]);
    if |cs| > 1 {
      EnumerationIsFlat(cs[1..]);
      PrintAltsAppend([Value(cs[0])], AltsOfAll(ts[1..]));
    }
  }

  lemma {:induction false} PartsAreFlat(parts: seq<Schema>)
    requires parts != [] && forall part <- parts :: Printable(part)
    ensures var alts := AltsOfAll(TypesOf(parts));
            AllWellFormed(alts) && Join(" | ", Texts(parts)) == PrintAlts(alts)
    decreases parts
  {
    TextIsFlat(parts[0]);
    assert TypesOf(parts)[1..] == TypesOf(parts[1..]);
    if |parts| > 1 {
      PartsAreFlat(parts[1..]);
      PrintAltsAppend(Alts(TypeOf(parts[0])), AltsOfAll(TypesOf(parts[1..])));
    } else {
      assert AltsOfAll(TypesOf(parts)) == Alts(TypeOf(parts[0]));
    }
  }

  lemma {:induction false} FieldsAreFlat(ps: seq<Property>)
    requires forall p <- ps :: Printable(p.schema)
    ensures var es := EntriesOf(FieldsOf(ps));
            (forall e <- es :: AllWellFormed(e.alts)) && Join("\n  ", FieldTexts(ps)) == PrintEntries(es)
    decreases ps
  {
    if ps != [] {
      TextIsFlat(ps[0].schema);
      FieldsAreFlat(ps[1..]);
      assert FieldsOf(ps)[1..] == FieldsOf(ps[1..]);
      assert EntriesOf(FieldsOf(ps))[1..] == EntriesOf(FieldsOf(ps[1..]));
    }
  }

  // ---------------------------------------------------------------- reading the text back

  datatype Parsed<T> = Fail | Done(value: T, rest: string)

  function HexValue(c: char): Option<nat> {
    if '0' <= c <= '9' then Some(c as int - '0' as int)
    else if 'a' <= c <= 'f' then Some(c as int - 'a' as int + 10)
    else None
  }

  function ParseHex4(s: string): (r: Parsed<nat>)
    ensures r.Done? ==> |r.rest| < |s| && r.value < 0x1_0000
  {
    if |s| < 4 then Fail
    else match (HexValue(s[0]), HexValue(s[1]), HexValue(s[2]), HexValue(s[3]))
      case (Some(a), Some(b), Some(c), Some(d)) => Done(a * 0x1000 + b * 0x100 + c * 0x10 + d, s[4..])
      case _ => Fail
  }

  /** What is left of `s` after `prefix`, if it starts with it. */
  function Skip(prefix: string, s: string): (r: Option<string>)
    ensures r.Some? ==> |r.value| == |s| - |prefix|
  {
    if prefix <= s then Some(s[|prefix|..]) else None
  }

  /** One character of a JSON string. */
  function ParseChar(s: string): (r: Parsed<char>)
    ensures r.Done? ==> |r.rest| < |s|
  {
    if s == [] then Fail
    else if s[0] != '\\' then Done(s[0], s[1..])
    else if |s| < 2 then Fail
    else match s[1]
      case '"' => Done('"', s[2..])
      case '\\' => Done('\\', s[2..])
      case 'n' => Done('\n', s[2..])
      case 'r' => Done('\r', s[2..])
      case 't' => Done('\t', s[2..])
      case 'b' => Done(8 as char, s[2..])
      case 'f' => Done(12 as char, s[2..])
      case 'u' => ParseUnicode(s[2..])
      case _ => Fail
  }

  /** Four hex digits, or a surrogate pair of two such escapes. */
  function ParseUnicode(s: string): (r: Parsed<char>)
    ensures r.Done? ==> |r.rest| < |s|
  {
    var unit := ParseHex4(s);
    if unit.Fail? then Fail
    else if unit.value < 0xd800 || unit.value >= 0xe000 then Done(unit.value as char, unit.rest)
    else
      var next := Skip("\\u", unit.rest);
      var low := if next.None? then Fail else ParseHex4(next.value);
      if low.Fail? || unit.value >= 0xdc00 || low.value < 0xdc00 || low.value >= 0xe000 then Fail
      else Done((0x1_0000 + (unit.value - 0xd800) * 0x400 + (low.value - 0xdc00)) as char, low.rest)
  }

  /** The rest of a string literal after its opening quote. */
  function ParseChars(s: string): (r: Parsed<string>)
    ensures r.Done? ==> |r.rest| < |s|
    decreases |s|
  {
    if s == [] then Fail
    else if s[0] == '"' then Done("", s[1..])
    else
      var c := ParseChar(s);
      if c.Fail? then Fail
      else
        var more := ParseChars(c.rest);
        if more.Fail? then Fail else Done([c.value] + more.value, more.rest)
  }

  function SpanLength(s: string, p: char -> bool): (n: nat)
    ensures n <= |s| && forall i :: 0 <= i < n ==> p(s[i])
  {
    if s == [] || !p(s[0]) then 0 else 1 + SpanLength(s[1..], p)
  }

  function ParseNumber(s: string): (r: Parsed<int>)
    ensures r.Done? ==> |r.rest| < |s|
  {
    var n := SpanLength(s, IsDigit);
    if n == 0 then Fail else Done(DecimalValue(s[..n]), s[n..])
  }

  function Keyword(name: string): Alt {
    if name == "string" then OfBasic(Text)
    else if name == "number" then OfBasic(Numeric)
    else if name == "boolean" then OfBasic(Bool)
    else if name == "unknown" then OfBasic(Anything)
    else if name == "null" then Value(JNull)
    else if name == "true" then Value(JBool(true))
    else if name == "false" then Value(JBool(false))
    else Alias(name)
  }

  function ParseText(s: string): (r: Parsed<Alt>)
    ensures r.Done? ==> |r.rest| < |s|
  {
    var text := ParseChars(s);
    if text.Fail? then Fail else Done(Value(JStr(text.value)), text.rest)
  }

  function ParseNegative(s: string): (r: Parsed<Alt>)
    ensures r.Done? ==> |r.rest| < |s|
  {
    var n := ParseNumber(s);
    if n.Fail? then Fail else Done(Value(JNum((-n.value) as real)), n.rest)
  }

  function ParsePositive(s: string): (r: Parsed<Alt>)
    ensures r.Done? ==> |r.rest| < |s|
  {
    var n := ParseNumber(s);
    if n.Fail? then Fail else Done(Value(JNum(n.value as real)), n.rest)
  }

  function ParseAlt(s: string): (r: Parsed<Alt>)
    ensures r.Done? ==> |r.rest| < |s|
    decreases |s|, 2
  {
    if s == [] then Fail
    else if s[0] == '"' then ParseText(s[1..])
    else if s[0] == '-' then ParseNegative(s[1..])
    else if IsDigit(s[0]) then ParsePositive(s)
    else if s[0] == '{' then ParseShape(s[1..])
    else if s[0] == '[' then ParseTuple(s[1..])
    else ParseWord(s)
  }

  function ParseWord(s: string): (r: Parsed<Alt>)
    ensures r.Done? ==> |r.rest| < |s|
    decreases |s|, 1
  {
    var n := SpanLength(s, IsNameChar);
    var name, rest := s[..n], s[n..];
    var list, record := Skip("<", rest), Skip("<string, ", rest);
    if n == 0 then Fail
    else if name == "Array" && list.Some? then
      var inner := ParseBracketed(list.value);
      if inner.Fail? then Fail else Done(ListOf(inner.value), inner.rest)
    else if name == "Record" && record.Some? then
      var inner := ParseBracketed(record.value);
      if inner.Fail? then Fail else Done(MapOf(inner.value), inner.rest)
    else Done(Keyword(name), rest)
  }

  /** The rest of a constant array after its opening bracket. */
  function ParseTuple(s: string): (r: Parsed<Alt>)
    ensures r.Done? ==> |r.rest| < |s|
    decreases |s|, 5
  {
    var empty := Skip("]", s);
    if empty.Some? then Done(Value(JArr([])), empty.value)
    else
      var items := ParseItems(s);
      if items.Fail? then Fail else Done(Value(JArr(items.value)), items.rest)
  }

  function ParseItems(s: string): (r: Parsed<seq<Json>>)
    ensures r.Done? ==> |r.rest| < |s|
    decreases |s|, 4
  {
    var item := ParseAlt(s);
    if item.Fail? || !item.value.Value? then Fail
    else
      var end, next := Skip("]", item.rest), Skip(", ", item.rest);
      if end.Some? then Done([item.value.value], end.value)
      else if next.None? then Fail
      else
        var more := ParseItems(next.value);
        if more.Fail? then Fail else Done([item.value.value] + more.value, more.rest)
  }

  function ParseBracketed(s: string): (r: Parsed<seq<Alt>>)
    ensures r.Done? ==> |r.rest| < |s|
    decreases |s|, 4
  {
    var alts := ParseAlts(s);
    if alts.Fail? then Fail
    else
      var rest := Skip(">", alts.rest);
      if rest.None? then Fail else Done(alts.value, rest.value)
  }

  function ParseAlts(s: string): (r: Parsed<seq<Alt>>)
    ensures r.Done? ==> |r.rest| < |s|
    decreases |s|, 3
  {
    var first := ParseAlt(s);
    if first.Fail? then Fail
    else
      var rest := Skip(" | ", first.rest);
      if rest.None? then Done([first.value], first.rest)
      else
        var more := ParseAlts(rest.value);
        if more.Fail? then Fail else Done([first.value] + more.value, more.rest)
  }

  function ParseShape(s: string): (r: Parsed<Alt>)
    ensures r.Done? ==> |r.rest| < |s|
    decreases |s|, 5
  {
    var body := Skip("\n  ", s);
    if body.None? then Fail
    else
      var rest := Skip("\n}", body.value);
      if rest.Some? then Done(Shape([]), rest.value)
      else
        var entries := ParseEntries(body.value);
        if entries.Fail? then Fail else Done(Shape(entries.value), entries.rest)
  }

  function ParseEntry(s: string): (r: Parsed<Entry>)
    ensures r.Done? ==> |r.rest| < |s|
    decreases |s|, 0
  {
    var open := Skip("\"", s);
    var name := if open.None? then Fail else ParseChars(open.value);
    if name.Fail? then Fail else ParseEntryType(name.value, name.rest)
  }

  function ParseEntryType(name: string, s: string): (r: Parsed<Entry>)
    ensures r.Done? ==> |r.rest| < |s|
    decreases |s|, 6
  {
    var text := Skip(": ", s);
    var alts := if text.None? then Fail else ParseAlts(text.value);
    var rest := if alts.Fail? then None else Skip(";", alts.rest);
    if rest.None? then Fail else Done(Entry(name, alts.value), rest.value)
  }

  function ParseEntries(s: string): (r: Parsed<seq<Entry>>)
    ensures r.Done? ==> |r.rest| < |s|
    decreases |s|, 1
  {
    var entry := ParseEntry(s);
    if entry.Fail? then Fail
    else
      var end, next := Skip("\n}", entry.rest), Skip("\n  ", entry.rest);
      if end.Some? then Done([entry.value], end.value)
      else if next.None? then Fail
      else
        var more := ParseEntries(next.value);
        if more.Fail? then Fail else Done([entry.value] + more.value, more.rest)
  }

  // ---------------------------------------------------------------- the parser inverts the printer

  lemma {:induction false} DigitBack(n: nat)
    requires n < 16
    ensures HexValue(HexDigit(n)) == Some(n) && HexDigit(n) != '"' && HexDigit(n) != '\\'
  {
  }

  lemma {:induction false} ParseHexBack(n: nat, rest: string)
    requires n < 0x1_0000
    ensures ParseHex4(Hex4(n) + rest) == Done(n, rest)
  {
    DigitBack(n / 0x1000);
    DigitBack(n / 0x100 % 16);
    DigitBack(n / 0x10 % 16);
    DigitBack(n % 16);
    assert (Hex4(n) + rest)[4..] == rest;
    var h := n / 0x10;
    var g := h / 0x10;
    assert n / 0x100 == g && n / 0x1000 == g / 0x10;
  }

  lemma {:induction false} SkipBack(prefix: string, tail: string)
    ensures Skip(prefix, prefix + tail) == Some(tail)
  {
    assert (prefix + tail)[|prefix|..] == tail;
  }

  lemma {:induction false} ParseCharBack(c: char, rest: string)
    ensures EscapeChar(c) != [] && EscapeChar(c)[0] != '"'
    ensures ParseChar(EscapeChar(c) + rest) == Done(c, rest)
  {
    var n, s := c as int, EscapeChar(c) + rest;
    if c in {'"', '\\', '\n', '\r', '\t', 8 as char, 12 as char} {
      assert s[2..] == rest;
    } else if ' ' <= c <= '~' {
      assert s[1..] == rest;
    } else if n < 0x1_0000 {
      ParseUnitBack(c, rest);
    } else {
      ParsePairBack(n - 0x1_0000, rest);
    }
  }

  lemma {:induction false} ParseUnitBack(c: char, rest: string)
    requires c as int < 0x1_0000
    ensures ParseChar("\\u" + Hex4(c as int) + rest) == Done(c, rest)
  {
    var s := "\\u" + Hex4(c as int) + rest;
    assert s[2..] == Hex4(c as int) + rest;
    ParseHexBack(c as int, rest);
  }

  lemma {:induction false} ParsePairBack(n: nat, rest: string)
    requires n < 0x10_0000
    ensures ParseChar(EscapePair(n) + rest) == Done((0x1_0000 + n) as char, rest)
  {
    var high, low := 0xd800 + n / 0x400, 0xdc00 + n % 0x400;
    SurrogateBounds(n);
    ParseHexBack(high, "\\u" + (Hex4(low) + rest));
    ParseHexBack(low, rest);
    ParseUnitsBack(Hex4(high), Hex4(low), high, low, rest);
  }

  lemma {:induction false} ParseUnitsBack(h: string, l: string, high: nat, low: nat, rest: string)
    requires 0xd800 <= high < 0xdc00 <= low < 0xe000
    requires ParseHex4(h + ("\\u" + (l + rest))) == Done(high, "\\u" + (l + rest))
    requires ParseHex4(l + rest) == Done(low, rest)
    ensures ParseChar("\\u" + h + "\\u" + l + rest)
         == Done((0x1_0000 + (high - 0xd800) * 0x400 + (low - 0xdc00)) as char, rest)
  {
    var tail := h + ("\\u" + (l + rest));
    SkipBack("\\u", l + rest);
    assert "\\u" + h + "\\u" + l + rest == "\\u" + tail;
    ParseEscapedBack(tail);
  }

  lemma {:induction false} ParseEscapedBack(tail: string)
    ensures ParseChar("\\u" + tail) == ParseUnicode(tail)
  {
    assert ("\\u" + tail)[2..] == tail;
  }

  lemma {:induction false} SurrogateBounds(n: int)
    requires 0 <= n < 0x10_0000
    ensures 0 <= n / 0x400 < 0x400 && 0 <= n % 0x400 < 0x400 && n / 0x400 * 0x400 + n % 0x400 == n
  {
  }

  lemma {:induction false} ParseCharsBack(text: string, rest: string)
    ensures ParseChars(Escape(text) + "\"" + rest) == Done(text, rest)
  {
    var s := Escape(text) + "\"" + rest;
    if text == [] {
      assert s == "\"" + rest;
    } else {
      var tail := Escape(text[1..]) + "\"" + rest;
      assert s == EscapeChar(text[0]) + tail;
      ParseCharBack(text[0], tail);
      ParseCharsBack(text[1..], rest);
      assert s[0] == EscapeChar(text[0])[0];
      assert [text[0]] + text[1..] == text;
    }
  }

  lemma {:induction false} SpanBack(s: string, rest: string, p: char -> bool)
    requires (forall c <- s :: p(c)) && (rest == [] || !p(rest[0]))
    ensures SpanLength(s + rest, p) == |s|
  {
    if s == [] {
      assert s + rest == rest;
    } else {
      assert (s + rest)[1..] == s[1..] + rest;
      SpanBack(s[1..], rest, p);
    }
  }

  lemma {:induction false} ParseNumberBack(n: nat, rest: string)
    requires rest == [] || !IsDigit(rest[0])
    ensures ParseNumber(Decimal(n) + rest) == Done(n, rest)
  {
    DecimalReadsBack(n);
    SpanBack(Decimal(n), rest, IsDigit);
    var s := Decimal(n) + rest;
    assert s[..|Decimal(n)|] == Decimal(n) && s[|Decimal(n)|..] == rest;
  }

  /** What may come after a type inside a larger one. */
  predicate Follows(rest: string) { rest == [] || rest[0] in {' ', '>', ';', ',', ']'} }

  lemma {:induction false} ParseNameBack(name: string, rest: string)
    requires name != [] && (forall c <- name :: IsNameChar(c)) && !IsDigit(name[0])
    requires Follows(rest) && !("<" <= rest)
    ensures ParseAlt(name + rest) == Done(Keyword(name), rest)
  {
    var s := name + rest;
    assert s[0] == name[0] && IsNameChar(name[0]);
    SpanBack(name, rest, IsNameChar);
    assert s[..|name|] == name && s[|name|..] == rest;
    assert Skip("<", rest) == None;
    assert Skip("<string, ", rest) == None;
  }

  /** A name, an opening mark, a type and ">". */
  lemma {:induction false} ParseOpenBack(name: string, open: string, alts: seq<Alt>, rest: string)
    requires (name == "Array" && open == "<") || (name == "Record" && open == "<string, ")
    requires AllWellFormed(alts) && ParseAlts(PrintAlts(alts) + (">" + rest)) == Done(alts, ">" + rest)
    ensures ParseAlt(name + (open + (PrintAlts(alts) + (">" + rest))))
         == Done(if name == "Array" then ListOf(alts) else MapOf(alts), rest)
  {
    var tail := PrintAlts(alts) + (">" + rest);
    BracketBack(tail, alts, rest);
    WordBack(name + (open + tail), name, open, tail);
  }

  lemma {:induction false} BracketBack(tail: string, alts: seq<Alt>, rest: string)
    requires ParseAlts(tail) == Done(alts, ">" + rest)
    ensures ParseBracketed(tail) == Done(alts, rest)
  {
    SkipBack(">", rest);
  }

  lemma {:induction false} WordBack(s: string, name: string, open: string, tail: string)
    requires (name == "Array" && open == "<") || (name == "Record" && open == "<string, ")
    requires s == name + (open + tail) && ParseBracketed(tail).Done?
    ensures var inner := ParseBracketed(tail);
            ParseAlt(s) == Done(if name == "Array" then ListOf(inner.value) else MapOf(inner.value), inner.rest)
  {
    SkipBack(open, tail);
    SpanBack(name, open + tail, IsNameChar);
    assert s[..|name|] == name && s[|name|..] == open + tail;
    assert ParseAlt(s) == ParseWord(s);
  }

  lemma {:induction false} ParsePositiveBack(n: nat, rest: string)
    requires Follows(rest)
    ensures ParseAlt(Decimal(n) + rest) == Done(Value(JNum(n as real)), rest)
  {
    ParseNumberBack(n, rest);
    assert (Decimal(n) + rest)[0] == Decimal(n)[0] && IsDigit(Decimal(n)[0]);
  }

  lemma {:induction false} ParseNegativeBack(n: int, rest: string)
    requires n < 0 && Follows(rest)
    ensures ParseAlt(DumpInt(n) + rest) == Done(Value(JNum(n as real)), rest)
  {
    MinusText(n, rest);
    MinusBack(DumpInt(n) + rest, Decimal(-n) + rest);
    ParseNumberBack(-n, rest);
    AfterMinusBack(Decimal(-n) + rest, n, rest);
  }

  lemma {:induction false} AfterMinusBack(s: string, n: int, rest: string)
    requires ParseNumber(s) == Done(-n, rest)
    ensures ParseNegative(s) == Done(Value(JNum(n as real)), rest)
  {
  }

  lemma {:induction false} MinusText(n: int, rest: string)
    requires n < 0
    ensures DumpInt(n) + rest == "-" + (Decimal(-n) + rest)
  {
  }

  lemma {:induction false} MinusBack(s: string, tail: string)
    requires s == "-" + tail
    ensures ParseAlt(s) == ParseNegative(tail)
  {
    assert s[1..] == tail;
  }

  lemma {:induction false} ParseValueBack(c: Json, rest: string)
    requires Plain(c) && Follows(rest)
    ensures ParseAlt(Dump(c) + rest) == Done(Value(c), rest)
    decreases c, 0
  {
    match c
    case JNull => ParseNameBack("null", rest);
    case JBool(b) => ParseBooleanBack(b, rest);
    case JStr(text) => ParseTextBack(text, rest);
    case JNum(x) => ParseIntBack(x.Floor, rest);
    case JArr(items) => ParseTupleBack(items, rest);
  }

  lemma {:induction false} ParseTupleBack(items: seq<Json>, rest: string)
    requires forall x <- items :: Plain(x)
    ensures ParseAlt(Dump(JArr(items)) + rest) == Done(Value(JArr(items)), rest)
    decreases items, 1
  {
    var tail := DumpItems(items) + ("]" + rest);
    assert Dump(JArr(items)) + rest == "[" + tail;
    BracketOpens("[" + tail, tail);
    if items == [] {
      assert tail == "]" + rest;
      SkipBack("]", rest);
    } else {
      ParseItemsBack(items, rest);
      ItemsStart(items);
      NoEmptyTuple(tail);
    }
  }

  lemma {:induction false} BracketOpens(s: string, tail: string)
    requires s == "[" + tail
    ensures ParseAlt(s) == ParseTuple(tail)
  {
    assert s[1..] == tail;
  }

  lemma {:induction false} NoEmptyTuple(tail: string)
    requires tail != [] && tail[0] != ']' && ParseItems(tail).Done?
    ensures ParseTuple(tail) == Done(Value(JArr(ParseItems(tail).value)), ParseItems(tail).rest)
  {
  }

  lemma {:induction false} ItemsStart(items: seq<Json>)
    requires items != [] && forall x <- items :: Plain(x)
    ensures DumpItems(items) != [] && DumpItems(items)[0] != ']'
  {
    assert Dump(items[0]) != [] && Dump(items[0])[0] != ']';
  }

  lemma {:induction false} ItemsText(items: seq<Json>, end: string)
    requires |items| > 1 && forall x <- items :: Plain(x)
    ensures DumpItems(items) + end == Dump(items[0]) + (", " + (DumpItems(items[1..]) + end))
  {
  }

  lemma {:induction false} ParseItemsBack(items: seq<Json>, rest: string)
    requires items != [] && forall x <- items :: Plain(x)
    ensures ParseItems(DumpItems(items) + ("]" + rest)) == Done(items, rest)
    decreases items, 0
  {
    if |items| == 1 {
      OneItemBack(items[0], rest);
      assert items == [items[0]];
    } else {
      ItemsText(items, "]" + rest);
      ParseItemsBack(items[1..], rest);
      MoreItemsBack(items[0], DumpItems(items[1..]) + ("]" + rest));
      assert [items[0]] + items[1..] == items;
    }
  }

  lemma {:induction false} OneItemBack(c: Json, rest: string)
    requires Plain(c)
    ensures ParseItems(Dump(c) + ("]" + rest)) == Done([c], rest)
    decreases c, 1
  {
    ParseValueBack(c, "]" + rest);
    LastItem(Dump(c) + ("]" + rest), c, rest);
  }

  lemma {:induction false} MoreItemsBack(c: Json, tail: string)
    requires Plain(c) && ParseItems(tail).Done?
    ensures ParseItems(Dump(c) + (", " + tail)) == Done([c] + ParseItems(tail).value, ParseItems(tail).rest)
    decreases c, 1
  {
    ParseValueBack(c, ", " + tail);
    NextItem(Dump(c) + (", " + tail), c, tail);
  }

  lemma {:induction false} LastItem(s: string, c: Json, rest: string)
    requires ParseAlt(s) == Done(Value(c), "]" + rest)
    ensures ParseItems(s) == Done([c], rest)
  {
    SkipBack("]", rest);
  }

  lemma {:induction false} NextItem(s: string, c: Json, tail: string)
    requires ParseAlt(s) == Done(Value(c), ", " + tail) && ParseItems(tail).Done?
    ensures ParseItems(s) == Done([c] + ParseItems(tail).value, ParseItems(tail).rest)
  {
    SkipBack(", ", tail);
    assert (", " + tail)[0] == ',';
  }

  lemma {:induction false} ParseBooleanBack(b: bool, rest: string)
    requires Follows(rest)
    ensures ParseAlt((if b then "true" else "false") + rest) == Done(Value(JBool(b)), rest)
  {
    ParseNameBack(if b then "true" else "false", rest);
  }

  lemma {:induction false} ParseTextBack(text: string, rest: string)
    ensures ParseAlt(Quoted(text) + rest) == Done(Value(JStr(text)), rest)
  {
    var chars := Escape(text) + "\"" + rest;
    QuotedText(text, rest);
    QuoteBack(Quoted(text) + rest, chars);
    ParseCharsBack(text, rest);
  }

  lemma {:induction false} QuotedText(text: string, rest: string)
    ensures Quoted(text) + rest == "\"" + (Escape(text) + "\"" + rest)
  {
  }

  lemma {:induction false} QuoteBack(s: string, chars: string)
    requires s == "\"" + chars
    ensures ParseAlt(s) == ParseText(chars)
  {
    assert s[1..] == chars;
  }

  lemma {:induction false} ParseIntBack(n: int, rest: string)
    requires Follows(rest)
    ensures ParseAlt(DumpInt(n) + rest) == Done(Value(JNum(n as real)), rest)
  {
    if n < 0 {
      ParseNegativeBack(n, rest);
    } else {
      ParsePositiveBack(n, rest);
    }
  }

  lemma {:induction false} ParseAltBack(a: Alt, rest: string)
    requires WellFormed(a) && Follows(rest)
    ensures ParseAlt(PrintAlt(a) + rest) == Done(a, rest)
    decreases a, 0
  {
    match a
    case Alias(name) => ParseNameBack(name, rest);
    case Value(c) => ParseValueBack(c, rest);
    case OfBasic(b) => ParseBasicBack(b, rest);
    case ListOf(alts) =>
      ParseAltsBack(alts, ">" + rest);
      ParseListBack(alts, rest);
    case MapOf(alts) =>
      ParseAltsBack(alts, ">" + rest);
      ParseMapBack(alts, rest);
    case Shape(entries) => ParseShapeBack(entries, rest);
  }

  lemma {:induction false} ParseBasicBack(b: Basic, rest: string)
    requires Follows(rest)
    ensures ParseAlt(PrintAlt(OfBasic(b)) + rest) == Done(OfBasic(b), rest)
  {
    ParseNameBack(PrintAlt(OfBasic(b)), rest);
  }

  lemma {:induction false} ParseListBack(alts: seq<Alt>, rest: string)
    requires AllWellFormed(alts) && ParseAlts(PrintAlts(alts) + (">" + rest)) == Done(alts, ">" + rest)
    ensures ParseAlt(PrintAlt(ListOf(alts)) + rest) == Done(ListOf(alts), rest)
  {
    assert PrintAlt(ListOf(alts)) + rest == "Array" + ("<" + (PrintAlts(alts) + (">" + rest)));
    ParseOpenBack("Array", "<", alts, rest);
  }

  lemma {:induction false} ParseMapBack(alts: seq<Alt>, rest: string)
    requires AllWellFormed(alts) && ParseAlts(PrintAlts(alts) + (">" + rest)) == Done(alts, ">" + rest)
    ensures ParseAlt(PrintAlt(MapOf(alts)) + rest) == Done(MapOf(alts), rest)
  {
    assert PrintAlt(MapOf(alts)) + rest == "Record" + ("<string, " + (PrintAlts(alts) + (">" + rest)));
    ParseOpenBack("Record", "<string, ", alts, rest);
  }

  lemma {:induction false} ParseShapeBack(entries: seq<Entry>, rest: string)
    requires WellFormed(Shape(entries))
    ensures ParseAlt(PrintAlt(Shape(entries)) + rest) == Done(Shape(entries), rest)
    decreases entries, 1
  {
    var tail := PrintEntries(entries) + ("\n}" + rest);
    if entries == [] {
      EmptyShapeBack(rest);
      assert PrintEntries(entries) == "";
    } else {
      ParseEntriesBack(entries, rest);
      ShapeText(entries, rest);
      FullShapeBack(entries, tail, rest);
    }
    ShapeText(entries, rest);
    BraceBack(PrintAlt(Shape(entries)) + rest, "\n  " + tail);
  }

  lemma {:induction false} ShapeText(entries: seq<Entry>, rest: string)
    requires WellFormed(Shape(entries))
    ensures PrintAlt(Shape(entries)) + rest == "{" + ("\n  " + (PrintEntries(entries) + ("\n}" + rest)))
    ensures entries != [] ==> PrintEntries(entries) != [] && PrintEntries(entries)[0] == '"'
  {
    var text, tail := PrintEntries(entries), PrintEntries(entries) + ("\n}" + rest);
    assert "{\n  " + text + "\n}" + rest == "{" + ("\n  " + tail);
  }

  lemma {:induction false} BraceBack(s: string, tail: string)
    requires s == "{" + tail
    ensures ParseAlt(s) == ParseShape(tail)
  {
    assert s[1..] == tail;
  }

  lemma {:induction false} EmptyShapeBack(rest: string)
    ensures ParseShape("\n  " + ("\n}" + rest)) == Done(Shape([]), rest)
  {
    SkipBack("\n  ", "\n}" + rest);
    SkipBack("\n}", rest);
  }

  lemma {:induction false} FullShapeBack(entries: seq<Entry>, tail: string, rest: string)
    requires tail != [] && tail[0] == '"' && ParseEntries(tail) == Done(entries, rest)
    ensures ParseShape("\n  " + tail) == Done(Shape(entries), rest)
  {
    SkipBack("\n  ", tail);
    assert Skip("\n}", tail) == None;
  }

  lemma {:induction false} ParseAltsBack(alts: seq<Alt>, rest: string)
    requires AllWellFormed(alts) && Follows(rest) && !(" | " <= rest)
    ensures ParseAlts(PrintAlts(alts) + rest) == Done(alts, rest)
    decreases alts
  {
    if |alts| == 1 {
      ParseAltBack(alts[0], rest);
      assert Skip(" | ", rest) == None && alts == [alts[0]];
    } else {
      var tail := PrintAlts(alts[1..]) + rest;
      assert PrintAlts(alts) + rest == PrintAlt(alts[0]) + (" | " + tail);
      ParseAltBack(alts[0], " | " + tail);
      SkipBack(" | ", tail);
      ParseAltsBack(alts[1..], rest);
      assert [alts[0]] + alts[1..] == alts;
    }
  }

  lemma {:induction false} ParseEntriesBack(entries: seq<Entry>, rest: string)
    requires entries != [] && forall e <- entries :: AllWellFormed(e.alts)
    ensures ParseEntries(PrintEntries(entries) + ("\n}" + rest)) == Done(entries, rest)
    decreases entries, 0
  {
    if |entries| == 1 {
      ParseEntryBack(entries[0], "\n}" + rest);
      LastEntryBack(entries[0], rest);
      assert entries == [entries[0]];
    } else {
      var tail := PrintEntries(entries[1..]) + ("\n}" + rest);
      ParseEntryBack(entries[0], "\n  " + tail);
      ParseEntriesBack(entries[1..], rest);
      MoreEntriesBack(entries, rest);
    }
  }

  lemma {:induction false} LastEntryBack(e: Entry, rest: string)
    requires AllWellFormed(e.alts)
    requires ParseEntry(PrintEntry(e) + ("\n}" + rest)) == Done(e, "\n}" + rest)
    ensures ParseEntries(PrintEntry(e) + ("\n}" + rest)) == Done([e], rest)
  {
    SkipBack("\n}", rest);
  }

  lemma {:induction false} MoreEntriesBack(entries: seq<Entry>, rest: string)
    requires |entries| > 1 && forall e <- entries :: AllWellFormed(e.alts)
    requires var tail := PrintEntries(entries[1..]) + ("\n}" + rest);
             ParseEntry(PrintEntry(entries[0]) + ("\n  " + tail)) == Done(entries[0], "\n  " + tail)
             && ParseEntries(tail) == Done(entries[1..], rest)
    ensures ParseEntries(PrintEntries(entries) + ("\n}" + rest)) == Done(entries, rest)
  {
    var tail := PrintEntries(entries[1..]) + ("\n}" + rest);
    EntriesText(entries, rest);
    NextEntryBack(PrintEntry(entries[0]) + ("\n  " + tail), tail, entries[0], entries[1..], rest);
    assert [entries[0]] + entries[1..] == entries;
  }

  lemma {:induction false} EntriesText(entries: seq<Entry>, rest: string)
    requires |entries| > 1 && forall e <- entries :: AllWellFormed(e.alts)
    ensures PrintEntries(entries) + ("\n}" + rest)
         == PrintEntry(entries[0]) + ("\n  " + (PrintEntries(entries[1..]) + ("\n}" + rest)))
  {
    Reassociate(PrintEntry(entries[0]), "\n  ", PrintEntries(entries[1..]), "\n}" + rest);
  }

  lemma {:induction false} Reassociate(a: string, b: string, c: string, d: string)
    ensures (a + (b + c)) + d == a + (b + (c + d))
  {
  }

  lemma {:induction false} NextEntryBack(s: string, tail: string, e: Entry, more: seq<Entry>, rest: string)
    requires ParseEntry(s) == Done(e, "\n  " + tail) && ParseEntries(tail) == Done(more, rest)
    ensures ParseEntries(s) == Done([e] + more, rest)
  {
    SkipBack("\n  ", tail);
    assert ("\n  " + tail)[1] == ' ';
    assert Skip("\n}", "\n  " + tail) == None;
  }

  lemma {:induction false} ParseEntryBack(e: Entry, after: string)
    requires AllWellFormed(e.alts)
    ensures ParseEntry(PrintEntry(e) + after) == Done(e, after)
    decreases e
  {
    var tail := PrintAlts(e.alts) + (";" + after);
    ParseAltsBack(e.alts, ";" + after);
    ParseEntryTypeBack(e, after);
    ParseCharsBack(e.name, ": " + tail);
    EntryText(e, after);
    ParseEntryNameBack(e.name, Escape(e.name) + "\"" + (": " + tail), ": " + tail);
  }

  lemma {:induction false} EntryText(e: Entry, after: string)
    requires AllWellFormed(e.alts)
    ensures PrintEntry(e) + after == "\"" + (Escape(e.name) + "\"" + (": " + (PrintAlts(e.alts) + (";" + after))))
  {
  }

  lemma {:induction false} ParseEntryNameBack(name: string, chars: string, rest: string)
    requires ParseChars(chars) == Done(name, rest)
    ensures ParseEntry("\"" + chars) == ParseEntryType(name, rest)
  {
    SkipBack("\"", chars);
  }

  lemma {:induction false} ParseEntryTypeBack(e: Entry, after: string)
    requires AllWellFormed(e.alts)
    requires ParseAlts(PrintAlts(e.alts) + (";" + after)) == Done(e.alts, ";" + after)
    ensures ParseEntryType(e.name, ": " + (PrintAlts(e.alts) + (";" + after))) == Done(e, after)
  {
    SkipBack(": ", PrintAlts(e.alts) + (";" + after));
    SkipBack(";", after);
  }

  /** The text of a generated type can be read in exactly one way: parsing it yields the
      alternatives of the type tree it was printed from, and nothing is left over. */
  lemma {:induction false} TextParsesBack(s: Schema)
    requires Printable(s)
    ensures ParseAlts(TsType(s)) == Done(Alts(TypeOf(s)), "")
  {
    TextIsFlat(s);
    ParseAltsBack(Alts(TypeOf(s)), "");
    assert TsType(s) + "" == TsType(s);
  }

  /** So two schemas printed alike have the same values: the unparenthesised unions are safe. */
  lemma {:induction false} TextDeterminesMembers(r: Reading, fuel: nat, v: Json, a: Schema, b: Schema)
    requires Printable(a) && Printable(b) && TsType(a) == TsType(b)
    ensures Inhabits(r, fuel, v, TypeOf(a)) <==> Inhabits(r, fuel, v, TypeOf(b))
  {
    TextParsesBack(a);
    TextParsesBack(b);
    FlatteningKeepsMembers(r, fuel, v, TypeOf(a));
    FlatteningKeepsMembers(r, fuel, v, TypeOf(b));
  }

  /** A reference to a definition is printed as the definition's own name. */
  lemma {:induction false} ReferenceIsPrintedAsName(path: string, name: string)
    requires '/' !in name && IsTypeName(name)
    ensures AfterLastSlash(path + "/" + name) == name
    ensures TsType(EMPTY.(ref := Some(path + "/" + name))) == name
  {
    ReferenceIsLastSegment(path, name);
  }

  /** A reference, printed as the name of its definition, reads back as one exactly if the name is
      not a word the printed language uses itself: `string` is read as the type, `true` as the
      constant. */
  lemma {:induction false} NameReadsBackIff(name: string)
    requires name != [] && (forall c <- name :: IsNameChar(c)) && !IsDigit(name[0])
    ensures ParseAlts(name) == Done(Alts(Named(name)), "") <==> name !in RESERVED
  {
    ParseNameBack(name, "");
    assert name + "" == name && Skip(" | ", "") == None;
    assert ParseAlts(name) == Done([Keyword(name)], "");
  }
}
