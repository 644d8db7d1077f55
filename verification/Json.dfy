/**
  Canonical JSON text (`json.dumps` with sorted keys, compact separators and
  `ensure_ascii=False`) and a reader for it. Reading back what was written, with anything
  after it, is what makes the text of a payload both unambiguous and self-delimiting.
 */
module Json {
  import opened Wrappers

  datatype Json =
    | Null
    | Bool(truth: bool)
    | Num(numeral: string)          // the digits as written
    | Str(text: string)
    | Arr(items: seq<Json>)
    | Obj(fields: map<string, Json>)

  /** The fields of an object, as events and candidates carry them. */
  type Payload = map<string, Json>

  /** A missing field reads as null. */
  function Get(payload: Payload, name: string): Json {
    if name in payload then payload[name] else Null
  }

  // ---------------------------------------------------------------- key order

  predicate Leq(a: string, b: string) {
    a == [] || (b != [] && (a[0] < b[0] || (a[0] == b[0] && Leq(a[1..], b[1..]))))
  }

  lemma LeqTotal(a: string, b: string)
    ensures Leq(a, b) || Leq(b, a)
  {
  }

  lemma LeqTransitive(a: string, b: string, c: string)
    requires Leq(a, b) && Leq(b, c)
    ensures Leq(a, c)
  {
  }

  lemma LeqAntisymmetric(a: string, b: string)
    requires Leq(a, b) && Leq(b, a)
    ensures a == b
  {
    if a != [] {
      LeqAntisymmetric(a[1..], b[1..]);
      assert a == [a[0]] + a[1..] && b == [b[0]] + b[1..];
    }
  }

  predicate IsLeast(k: string, keys: set<string>) { k in keys && forall x | x in keys :: Leq(k, x) }

  lemma OneLeast(keys: set<string>)
    requires keys != {}
    ensures exists k :: IsLeast(k, keys)
    ensures forall k, l | IsLeast(k, keys) && IsLeast(l, keys) :: k == l
  {
    LeastExists(keys);
    forall k, l | IsLeast(k, keys) && IsLeast(l, keys) ensures k == l {
      LeqAntisymmetric(k, l);
    }
  }

  lemma LeastExists(keys: set<string>)
    requires keys != {}
    ensures exists k :: IsLeast(k, keys)
  {
    var k :| k in keys;
    LeqTotal(k, k);
    if keys == {k} {
      assert IsLeast(k, keys);
    } else {
      LeastExists(keys - {k});
      var m :| IsLeast(m, keys - {k});
      LeqTotal(m, k);
      var least := if Leq(m, k) then m else k;
      forall x | x in keys ensures Leq(least, x) {
        if x != k {
          assert x in keys - {k};
          if least == k { LeqTransitive(k, m, x); }
        }
      }
      assert IsLeast(least, keys);
    }
  }

  function Least(keys: set<string>): (least: string)
    requires keys != {}
    ensures IsLeast(least, keys)
  {
    OneLeast(keys);
    var k :| k in keys && IsLeast(k, keys);
    k
  }

  /** The keys of an object in the order they are written. */
  function Sorted(keys: set<string>): (order: seq<string>)
    ensures forall k :: k in order <==> k in keys
    ensures forall i, j | 0 <= i < j < |order| :: order[i] != order[j] && Leq(order[i], order[j])
  {
    if keys == {} then []
    else
      var m := Least(keys);
      var rest := Sorted(keys - {m});
      assert forall k :: k in [m] + rest <==> k == m || k in rest;
      [m] + rest
  }

  // ---------------------------------------------------------------- strings

  predicate IsControl(c: char) { c as int < 0x20 }

  function HexDigit(n: int): char
    requires 0 <= n < 16
  {
    if n < 10 then ('0' as int + n) as char else ('a' as int + n - 10) as char
  }

  function HexValue(c: char): Option<int> {
    if '0' <= c <= '9' then Some(c as int - '0' as int)
    else if 'a' <= c <= 'f' then Some(c as int - 'a' as int + 10)
    else None
  }

  function Escape(c: char): string {
    if c == '"' then ['\\', '"']
    else if c == '\\' then ['\\', '\\']
    else if c == '\n' then ['\\', 'n']
    else if c == '\r' then ['\\', 'r']
    else if c == '\t' then ['\\', 't']
    else if c == '\U{0008}' then ['\\', 'b']
    else if c == '\U{000c}' then ['\\', 'f']
    else if IsControl(c) then ['\\', 'u', '0', '0', HexDigit(c as int / 16), HexDigit(c as int % 16)]
    else [c]
  }

  function EscapeAll(s: string): string {
    if s == [] then [] else Escape(s[0]) + EscapeAll(s[1..])
  }

  function Quoted(s: string): string { ['"'] + EscapeAll(s) + ['"'] }

  function ReadShort(c: char): Option<char> {
    if c == '"' then Some('"')
    else if c == '\\' then Some('\\')
    else if c == 'n' then Some('\n')
    else if c == 'r' then Some('\r')
    else if c == 't' then Some('\t')
    else if c == 'b' then Some('\U{0008}')
    else if c == 'f' then Some('\U{000c}')
    else None
  }

  /** One character of a string body, as far as canonical text needs it. */
  function ReadChar(s: string): (r: Option<(char, string)>)
    ensures r.Some? ==> |r.value.1| < |s|
  {
    if s == [] || s[0] == '"' then None
    else if s[0] != '\\' then Some((s[0], s[1..]))
    else if |s| < 2 then None
    else if s[1] == 'u' then
      if |s| < 6 || s[2] != '0' || s[3] != '0' then None
      else
        match (HexValue(s[4]), HexValue(s[5]))
        case (Some(high), Some(low)) => Some(((16 * high + low) as char, s[6..]))
        case _ => None
    else
      match ReadShort(s[1])
      case Some(c) => Some((c, s[2..]))
      case None => None
  }

  /** The rest of a string, after its opening quote. */
  function ReadString(s: string): (r: Option<(string, string)>)
    ensures r.Some? ==> |r.value.1| < |s|
    decreases |s|
  {
    if s == [] then None
    else if s[0] == '"' then Some(([], s[1..]))
    else
      match ReadChar(s)
      case None => None
      case Some((c, rest)) =>
        match ReadString(rest)
        case None => None
        case Some((text, after)) => Some(([c] + text, after))
  }

  lemma CharRoundTrip(c: char, rest: string)
    ensures Escape(c)[0] != '"'
    ensures ReadChar(Escape(c) + rest) == Some((c, rest))
  {
    var s := Escape(c) + rest;
    assert s[|Escape(c)|..] == rest;
    if s[0] == '\\' && s[1] == 'u' {
      var v := c as int;
      assert HexValue(HexDigit(v / 16)) == Some(v / 16) && HexValue(HexDigit(v % 16)) == Some(v % 16);
      assert 16 * (v / 16) + v % 16 == v;
    }
  }

  lemma {:induction false} StringRoundTrip(s: string, rest: string)
    ensures ReadString(EscapeAll(s) + ['"'] + rest) == Some((s, rest))
  {
    if s == [] {
      assert EscapeAll(s) + ['"'] + rest == ['"'] + rest;
      assert (['"'] + rest)[1..] == rest;
    } else {
      var tail := EscapeAll(s[1..]) + ['"'] + rest;
      assert EscapeAll(s) + ['"'] + rest == Escape(s[0]) + tail;
      CharRoundTrip(s[0], tail);
      StringRoundTrip(s[1..], rest);
      assert [s[0]] + s[1..] == s;
    }
  }

  // ---------------------------------------------------------------- values

  predicate NumeralChar(c: char) { '0' <= c <= '9' || c in "+-.eE" }

  predicate IsNumeral(s: string) { s != [] && forall i | 0 <= i < |s| :: NumeralChar(s[i]) }

  predicate StopsNumeral(rest: string) { rest == [] || !NumeralChar(rest[0]) }

  /** Every number carries a numeral. */
  predicate WellFormed(j: Json) {
    match j
    case Num(n) => IsNumeral(n)
    case Arr(items) => forall i | 0 <= i < |items| :: WellFormed(items[i])
    case Obj(fields) => forall k | k in fields :: WellFormed(fields[k])
    case _ => true
  }

  function Dump(j: Json): string
    decreases j, 1
  {
    match j
    case Null => "null"
    case Bool(b) => if b then "true" else "false"
    case Num(n) => n
    case Str(s) => Quoted(s)
    case Arr(items) => "[" + DumpItems(j, items) + "]"
    case Obj(fields) => "{" + DumpFields(j, Sorted(fields.Keys)) + "}"
  }

  function DumpItems(j: Json, items: seq<Json>): string
    requires forall i | 0 <= i < |items| :: items[i] < j
    decreases j, 0, |items|
  {
    if items == [] then ""
    else if |items| == 1 then Dump(items[0])
    else Dump(items[0]) + "," + DumpItems(j, items[1..])
  }

  function DumpField(j: Json, key: string): string
    requires j.Obj? && key in j.fields
    decreases j, 0, 0
  {
    Quoted(key) + ":" + Dump(j.fields[key])
  }

  function DumpFields(j: Json, keys: seq<string>): string
    requires j.Obj? && forall k | k in keys :: k in j.fields
    decreases j, 0, |keys| + 1
  {
    if keys == [] then ""
    else if |keys| == 1 then DumpField(j, keys[0])
    else DumpField(j, keys[0]) + "," + DumpFields(j, keys[1..])
  }

  // ---------------------------------------------------------------- reading

  /** The numeral at the head of a text. */
  function ReadNumeral(s: string): (r: (string, string))
    ensures |r.0| + |r.1| == |s|
    ensures s != [] && NumeralChar(s[0]) ==> r.0 != []
  {
    if s == [] || !NumeralChar(s[0]) then ([], s)
    else
      var (digits, rest) := ReadNumeral(s[1..]);
      ([s[0]] + digits, rest)
  }

  function ReadValue(s: string): (r: Option<(Json, string)>)
    ensures r.Some? ==> |r.value.1| < |s|
    decreases |s|, 0
  {
    if s == [] then None
    else if s[0] == 'n' then if "null" <= s then Some((Null, s[4..])) else None
    else if s[0] == 't' then if "true" <= s then Some((Bool(true), s[4..])) else None
    else if s[0] == 'f' then if "false" <= s then Some((Bool(false), s[5..])) else None
    else if s[0] == '"' then
      match ReadString(s[1..])
      case Some((text, rest)) => Some((Str(text), rest))
      case None => None
    else if s[0] == '[' then
      if |s| > 1 && s[1] == ']' then Some((Arr([]), s[2..]))
      else
        match ReadItems(s[1..])
        case Some((items, rest)) => Some((Arr(items), rest))
        case None => None
    else if s[0] == '{' then
      if |s| > 1 && s[1] == '}' then Some((Obj(map[]), s[2..]))
      else
        match ReadFields(s[1..])
        case Some((fields, rest)) => Some((Obj(fields), rest))
        case None => None
    else if NumeralChar(s[0]) then
      var (digits, rest) := ReadNumeral(s);
      Some((Num(digits), rest))
    else None
  }

  function ReadItems(s: string): (r: Option<(seq<Json>, string)>)
    ensures r.Some? ==> |r.value.1| < |s|
    decreases |s|, 1
  {
    match ReadValue(s)
    case None => None
    case Some((item, rest)) =>
      if rest == [] then None
      else if rest[0] == ']' then Some(([item], rest[1..]))
      else if rest[0] == ',' then
        match ReadItems(rest[1..])
        case Some((items, after)) => Some(([item] + items, after))
        case None => None
      else None
  }

  function ReadField(s: string): (r: Option<((string, Json), string)>)
    ensures r.Some? ==> |r.value.1| < |s|
    decreases |s|, 1
  {
    if s == [] || s[0] != '"' then None
    else
      match ReadString(s[1..])
      case None => None
      case Some((key, rest)) =>
        if rest == [] || rest[0] != ':' then None
        else
          match ReadValue(rest[1..])
          case Some((value, after)) => Some(((key, value), after))
          case None => None
  }

  function ReadFields(s: string): (r: Option<(map<string, Json>, string)>)
    ensures r.Some? ==> |r.value.1| < |s|
    decreases |s|, 2
  {
    match ReadField(s)
    case None => None
    case Some(((key, value), rest)) =>
      if rest == [] then None
      else if rest[0] == '}' then Some((map[key := value], rest[1..]))
      else if rest[0] == ',' then
        match ReadFields(rest[1..])
        case Some((fields, after)) => Some((map[key := value] + fields, after))
        case None => None
      else None
  }

  // ---------------------------------------------------------------- round trip

  lemma {:induction false} NumeralRoundTrip(n: string, rest: string)
    requires (forall i | 0 <= i < |n| :: NumeralChar(n[i])) && StopsNumeral(rest)
    ensures ReadNumeral(n + rest) == (n, rest)
  {
    if n == [] {
      assert n + rest == rest;
    } else {
      assert (n + rest)[1..] == n[1..] + rest;
      NumeralRoundTrip(n[1..], rest);
      assert [n[0]] + n[1..] == n;
    }
  }

  /** What can start the text of a value. */
  lemma DumpStarts(j: Json)
    requires WellFormed(j)
    ensures Dump(j) != [] && Dump(j)[0] != ']' && Dump(j)[0] != '}'
  {
  }

  lemma ScalarRoundTrip(j: Json, rest: string)
    requires WellFormed(j) && !j.Str? && !j.Arr? && !j.Obj? && (j.Num? ==> StopsNumeral(rest))
    ensures ReadValue(Dump(j) + rest) == Some((j, rest))
  {
    assert (Dump(j) + rest)[|Dump(j)|..] == rest;
    if j.Num? {
      NumeralRoundTrip(j.numeral, rest);
    }
  }

  lemma TextRoundTrip(text: string, rest: string)
    ensures ReadValue(Quoted(text) + rest) == Some((Str(text), rest))
  {
    var body := EscapeAll(text) + ['"'] + rest;
    StringRoundTrip(text, rest);
    assert Quoted(text) + rest == ['"'] + body;
    assert (['"'] + body)[1..] == body;
  }

  // One step of the reader each, given what the parts read as.

  lemma EmptySteps(rest: string)
    ensures ReadValue(['[', ']'] + rest) == Some((Arr([]), rest))
    ensures ReadValue(['{', '}'] + rest) == Some((Obj(map[]), rest))
  {
    assert (['[', ']'] + rest)[2..] == rest;
    assert (['{', '}'] + rest)[2..] == rest;
  }

  lemma ArrayStep(body: string, items: seq<Json>, rest: string)
    requires body != [] && body[0] != ']' && ReadItems(body) == Some((items, rest))
    ensures ReadValue(['['] + body) == Some((Arr(items), rest))
  {
    assert (['['] + body)[1..] == body;
  }

  lemma LastItem(s: string, item: Json, rest: string)
    requires ReadValue(s) == Some((item, [']'] + rest))
    ensures ReadItems(s) == Some(([item], rest))
  {
    assert ([']'] + rest)[1..] == rest;
  }

  lemma NextItem(s: string, item: Json, tail: string, items: seq<Json>, rest: string)
    requires ReadValue(s) == Some((item, [','] + tail)) && ReadItems(tail) == Some((items, rest))
    ensures ReadItems(s) == Some(([item] + items, rest))
  {
    assert ([','] + tail)[1..] == tail;
  }

  lemma MoreItems(head: string, item: Json, tail: string, items: seq<Json>, rest: string)
    requires ReadValue(head + ([','] + (tail + ([']'] + rest)))) == Some((item, [','] + (tail + ([']'] + rest))))
    requires ReadItems(tail + ([']'] + rest)) == Some((items, rest))
    ensures ReadItems(head + "," + tail + ([']'] + rest)) == Some(([item] + items, rest))
  {
    hide ReadItems, ReadValue;
    var text := tail + ([']'] + rest);
    NextItem(head + ([','] + text), item, text, items, rest);
    assert head + "," + tail + ([']'] + rest) == head + ([','] + text);
  }

  lemma ObjectStep(body: string, fields: map<string, Json>, rest: string)
    requires body != [] && body[0] != '}' && ReadFields(body) == Some((fields, rest))
    ensures ReadValue(['{'] + body) == Some((Obj(fields), rest))
  {
    assert (['{'] + body)[1..] == body;
  }

  lemma FieldStep(body: string, key: string, text: string, value: Json, rest: string)
    requires ReadString(body) == Some((key, [':'] + text)) && ReadValue(text) == Some((value, rest))
    ensures ReadField(['"'] + body) == Some(((key, value), rest))
  {
    assert (['"'] + body)[1..] == body;
    assert ([':'] + text)[1..] == text;
  }

  lemma LastField(s: string, key: string, value: Json, rest: string)
    requires ReadField(s) == Some(((key, value), ['}'] + rest))
    ensures ReadFields(s) == Some((map[key := value], rest))
  {
    assert (['}'] + rest)[1..] == rest;
  }

  lemma NextField(s: string, key: string, value: Json, tail: string, fields: map<string, Json>, rest: string)
    requires ReadField(s) == Some(((key, value), [','] + tail)) && ReadFields(tail) == Some((fields, rest))
    ensures ReadFields(s) == Some((map[key := value] + fields, rest))
  {
    assert ([','] + tail)[1..] == tail;
  }

  lemma MoreFields(head: string, key: string, value: Json, tail: string, fields: map<string, Json>, rest: string)
    requires ReadField(head + ([','] + (tail + (['}'] + rest))))
          == Some(((key, value), [','] + (tail + (['}'] + rest))))
    requires ReadFields(tail + (['}'] + rest)) == Some((fields, rest))
    ensures ReadFields(head + "," + tail + (['}'] + rest)) == Some((map[key := value] + fields, rest))
  {
    hide ReadFields, ReadField;
    var text := tail + (['}'] + rest);
    NextField(head + ([','] + text), key, value, text, fields, rest);
    assert head + "," + tail + (['}'] + rest) == head + ([','] + text);
  }

  /** Reading a dumped value back gives the value and leaves exactly what followed it. */
  lemma {:induction false} RoundTrip(j: Json, rest: string)
    requires WellFormed(j) && (j.Num? ==> StopsNumeral(rest))
    ensures ReadValue(Dump(j) + rest) == Some((j, rest))
    decreases j, 1
  {
    match j
    case Arr(items) => ArrayRoundTrip(j, rest);
    case Obj(fields) => ObjectRoundTrip(j, rest);
    case Str(text) => TextRoundTrip(text, rest);
    case _ => ScalarRoundTrip(j, rest);
  }

  lemma {:induction false} ArrayRoundTrip(j: Json, rest: string)
    requires WellFormed(j) && j.Arr?
    ensures ReadValue(Dump(j) + rest) == Some((j, rest))
    decreases j, 0, |j.items| + 1
  {
    hide ReadValue, ReadItems, ReadFields;
    if j.items == [] {
      EmptySteps(rest);
      assert Dump(j) + rest == ['[', ']'] + rest;
    } else {
      ItemsRoundTrip(j, j.items, rest);
      var body := DumpItems(j, j.items) + ([']'] + rest);
      ArrayStep(body, j.items, rest);
      assert Dump(j) + rest == ['['] + body;
    }
  }

  lemma {:induction false} ObjectRoundTrip(j: Json, rest: string)
    requires WellFormed(j) && j.Obj?
    ensures ReadValue(Dump(j) + rest) == Some((j, rest))
    decreases j, 0, |Sorted(j.fields.Keys)| + 2
  {
    hide ReadValue, ReadItems, ReadFields, Sorted;
    var keys := Sorted(j.fields.Keys);
    if keys == [] {
      SortedCovers(j.fields);
      EmptySteps(rest);
      assert Dump(j) + rest == ['{', '}'] + rest;
    } else {
      FieldsRoundTrip(j, keys, rest);
      var body := DumpFields(j, keys) + (['}'] + rest);
      SortedCovers(j.fields);
      ObjectStep(body, j.fields, rest);
      assert Dump(j) + rest == ['{'] + body;
    }
  }

  lemma {:induction false} ItemsRoundTrip(j: Json, items: seq<Json>, rest: string)
    requires items != [] && forall i | 0 <= i < |items| :: items[i] < j && WellFormed(items[i])
    ensures DumpItems(j, items) != [] && DumpItems(j, items)[0] != ']'
    ensures ReadItems(DumpItems(j, items) + ([']'] + rest)) == Some((items, rest))
    decreases j, 0, |items|
  {
    hide ReadValue, ReadItems, ReadField, ReadFields, ReadString;
    DumpStarts(items[0]);
    if |items| == 1 {
      RoundTrip(items[0], [']'] + rest);
      LastItem(Dump(items[0]) + ([']'] + rest), items[0], rest);
      assert items == [items[0]];
    } else {
      var tail := DumpItems(j, items[1..]);
      RoundTrip(items[0], [','] + (tail + ([']'] + rest)));
      ItemsRoundTrip(j, items[1..], rest);
      MoreItems(Dump(items[0]), items[0], tail, items[1..], rest);
      assert [items[0]] + items[1..] == items;
    }
  }

  lemma {:induction false} FieldRoundTrip(j: Json, key: string, rest: string)
    requires j.Obj? && key in j.fields && WellFormed(j)
    requires StopsNumeral(rest)
    ensures DumpField(j, key)[0] == '"'
    ensures ReadField(DumpField(j, key) + rest) == Some(((key, j.fields[key]), rest))
    decreases j, 0, 0
  {
    var text := Dump(j.fields[key]) + rest;
    RoundTrip(j.fields[key], rest);
    hide ReadValue, ReadField, ReadString, Dump, EscapeAll, WellFormed;
    StringRoundTrip(key, [':'] + text);
    var body := EscapeAll(key) + ['"'] + ([':'] + text);
    FieldStep(body, key, text, j.fields[key], rest);
    FieldText(EscapeAll(key), Dump(j.fields[key]), rest);
  }

  lemma FieldText(name: string, value: string, rest: string)
    ensures ['"'] + name + ['"'] + ":" + value + rest == ['"'] + (name + ['"'] + ([':'] + (value + rest)))
  {
  }

  lemma {:induction false} FieldsRoundTrip(j: Json, keys: seq<string>, rest: string)
    requires j.Obj? && WellFormed(j)
    requires keys != [] && forall k | k in keys :: k in j.fields
    requires forall a, b | 0 <= a < b < |keys| :: keys[a] != keys[b]
    ensures DumpFields(j, keys) != [] && DumpFields(j, keys)[0] == '"'
    ensures ReadFields(DumpFields(j, keys) + (['}'] + rest)) == Some((map k | k in keys :: j.fields[k], rest))
    decreases j, 0, |keys| + 1
  {
    hide ReadValue, ReadItems, ReadField, ReadFields, ReadString;
    var value := j.fields[keys[0]];
    if |keys| == 1 {
      FieldRoundTrip(j, keys[0], ['}'] + rest);
      LastField(DumpField(j, keys[0]) + (['}'] + rest), keys[0], value, rest);
      assert (map k | k in keys :: j.fields[k]) == map[keys[0] := value];
    } else {
      var tail := DumpFields(j, keys[1..]);
      FieldRoundTrip(j, keys[0], [','] + (tail + (['}'] + rest)));
      FieldsRoundTrip(j, keys[1..], rest);
      MoreFields(DumpField(j, keys[0]), keys[0], value, tail, map k | k in keys[1..] :: j.fields[k], rest);
      FieldsSplit(j.fields, keys);
    }
  }

  lemma SortedCovers(fields: map<string, Json>)
    ensures (map k | k in Sorted(fields.Keys) :: fields[k]) == fields
  {
  }

  lemma FieldsSplit(fields: map<string, Json>, keys: seq<string>)
    requires |keys| > 1 && forall k | k in keys :: k in fields
    requires forall a, b | 0 <= a < b < |keys| :: keys[a] != keys[b]
    ensures (map k | k in keys :: fields[k])
         == map[keys[0] := fields[keys[0]]] + (map k | k in keys[1..] :: fields[k])
  {
    assert forall k :: k in keys <==> k == keys[0] || k in keys[1..];
  }

  /**
    The text of an object is never a proper prefix of another text that continues it: equal
    texts with anything appended come from equal objects and equal continuations.
   */
  lemma ObjectTextIsSelfDelimiting(a: map<string, Json>, b: map<string, Json>, x: string, y: string)
    requires WellFormed(Obj(a)) && WellFormed(Obj(b))
    requires Dump(Obj(a)) + x == Dump(Obj(b)) + y
    ensures a == b && x == y
  {
    RoundTrip(Obj(a), x);
    RoundTrip(Obj(b), y);
  }
}
