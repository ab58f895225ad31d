/** JSON text: what JSON.stringify writes for a tree, and a reader for the grammar of RFC 8259.
    The reader gives back every tree that was written. */
module JsonText {
  import opened Options
  import opened Json

  const QUOTE: Unit := 34
  const BACKSLASH: Unit := 92
  const COMMA: Unit := 44
  const COLON: Unit := 58
  const NULL_TEXT: Str := [110, 117, 108, 108]
  const TRUE_TEXT: Str := [116, 114, 117, 101]
  const FALSE_TEXT: Str := [102, 97, 108, 115, 101]

  /* ---- writing ---- */

  function Hex(d: nat): Unit
    requires d < 16
  {
    if d < 10 then 48 + d else 87 + d
  }

  function Unicode(u: Unit): Str {
    [BACKSLASH, 117, Hex(u / 4096), Hex(u / 256 % 16), Hex(u / 16 % 16), Hex(u % 16)]
  }

  predicate High(u: Unit) { 0xD800 <= u < 0xDC00 }
  predicate Low(u: Unit) { 0xDC00 <= u < 0xE000 }

  /** The letter of a two-character escape, or 0. */
  function Short(u: Unit): Unit {
    if u == QUOTE || u == BACKSLASH then u
    else if u == 8 then 98 else if u == 9 then 116 else if u == 10 then 110
    else if u == 12 then 102 else if u == 13 then 114 else 0
  }

  function Escaped(u: Unit): Str {
    if Short(u) != 0 then [BACKSLASH, Short(u)]
    else if u < 32 || High(u) || Low(u) then Unicode(u)
    else [u]
  }

  /** A surrogate pair stands as it is; a lone surrogate is escaped. */
  function Quoted(s: Str): Str {
    if s == [] then [QUOTE]
    else if |s| > 1 && High(s[0]) && Low(s[1]) then s[..2] + Quoted(s[2..])
    else Escaped(s[0]) + Quoted(s[1..])
  }

  function Write(t: Json): Str {
    match t
    case Null => NULL_TEXT
    case Bool(value) => if value then TRUE_TEXT else FALSE_TEXT
    case Num(token) => token
    case Text(units) => [QUOTE] + Quoted(units)
    case Arr(items) => [91] + WriteItems(items) + [93]
    case Obj(fields) => [123] + WriteFields(fields) + [125]
  }

  function WriteItems(items: seq<Json>): Str {
    if items == [] then []
    else if |items| == 1 then Write(items[0])
    else Write(items[0]) + [COMMA] + WriteItems(items[1..])
  }

  function WriteField(f: Field): Str {
    [QUOTE] + Quoted(f.key) + [COLON] + Write(f.value)
  }

  function WriteFields(fields: seq<Field>): Str {
    if fields == [] then []
    else if |fields| == 1 then WriteField(fields[0])
    else WriteField(fields[0]) + [COMMA] + WriteFields(fields[1..])
  }

  /* ---- reading ---- */

  datatype Read<T> = Read(value: T, rest: Str)

  predicate Space(u: Unit) {
    u == 32 || u == 9 || u == 10 || u == 13
  }

  function Skip(s: Str): (r: Str)
    ensures |r| <= |s|
  {
    if s != [] && Space(s[0]) then Skip(s[1..]) else s
  }

  function HexValue(u: Unit): Option<nat> {
    if 48 <= u <= 57 then Some(u - 48)
    else if 97 <= u <= 102 then Some(u - 87)
    else if 65 <= u <= 70 then Some(u - 55)
    else None
  }

  function HexUnit(s: Str): (r: Option<Unit>)
    requires |s| >= 4
  {
    var a, b, c, d := HexValue(s[0]), HexValue(s[1]), HexValue(s[2]), HexValue(s[3]);
    if a.Some? && b.Some? && c.Some? && d.Some? then
      var v := 4096 * a.value + 256 * b.value + 16 * c.value + d.value;
      if v < 0x10000 then Some(v) else None
    else None
  }

  /** What a two-character escape stands for. */
  function Unshort(u: Unit): Option<Unit> {
    if u == QUOTE || u == BACKSLASH || u == 47 then Some(u)
    else if u == 98 then Some(8) else if u == 116 then Some(9) else if u == 110 then Some(10)
    else if u == 102 then Some(12) else if u == 114 then Some(13) else None
  }

  /** The characters of a string, after its opening quote. */
  function ReadString(s: Str): (r: Option<Read<Str>>)
    ensures r.Some? ==> |r.value.rest| < |s|
  {
    if s == [] || s[0] < 32 then None
    else if s[0] == QUOTE then Some(Read([], s[1..]))
    else if s[0] != BACKSLASH then Prepend(s[0], ReadString(s[1..]))
    else if |s| >= 6 && s[1] == 117 then
      var u := HexUnit(s[2..6]);
      if u.None? then None else Prepend(u.value, ReadString(s[6..]))
    else if |s| >= 2 && Unshort(s[1]).Some? then Prepend(Unshort(s[1]).value, ReadString(s[2..]))
    else None
  }

  function Prepend(u: Unit, r: Option<Read<Str>>): Option<Read<Str>> {
    if r.None? then None else Some(Read([u] + r.value.value, r.value.rest))
  }

  function NumberPrefix(s: Str): (n: nat)
    ensures n <= |s| && (forall i :: 0 <= i < n ==> NumberUnit(s[i])) && (n < |s| ==> !NumberUnit(s[n]))
  {
    if s == [] || !NumberUnit(s[0]) then 0 else 1 + NumberPrefix(s[1..])
  }

  /** A property set twice keeps its first place and its last value. */
  function Put(fields: seq<Field>, key: Str, value: Json): seq<Field> {
    if key in KeysOf(fields) then fields[IndexOf(fields, key) := Field(key, value)] else fields + [Field(key, value)]
  }

  function ReadLiteral(s: Str, literal: Str, value: Json): (r: Option<Read<Json>>)
    requires literal != []
    ensures r.Some? ==> |r.value.rest| < |s|
  {
    if |literal| <= |s| && s[..|literal|] == literal then Some(Read(value, s[|literal|..])) else None
  }

  function ReadText(s: Str): (r: Option<Read<Json>>)
    ensures r.Some? ==> |r.value.rest| < |s|
  {
    var r := ReadString(s);
    if r.None? then None else Some(Read(Text(r.value.value), r.value.rest))
  }

  function ReadNumber(s: Str): (r: Option<Read<Json>>)
    ensures r.Some? ==> |r.value.rest| < |s|
  {
    var n := NumberPrefix(s);
    if NumberToken(s[..n]) then Some(Read(Num(s[..n]), s[n..])) else None
  }

  function ReadValue(text: Str): (r: Option<Read<Json>>)
    ensures r.Some? ==> |r.value.rest| < |text|
    decreases |text|, 1
  {
    var s := Skip(text);
    if s == [] then None
    else if s[0] == NULL_TEXT[0] then ReadLiteral(s, NULL_TEXT, Null)
    else if s[0] == TRUE_TEXT[0] then ReadLiteral(s, TRUE_TEXT, Bool(true))
    else if s[0] == FALSE_TEXT[0] then ReadLiteral(s, FALSE_TEXT, Bool(false))
    else if s[0] == QUOTE then ReadText(s[1..])
    else if s[0] == 91 then ReadArr(s[1..])
    else if s[0] == 123 then ReadObj(s[1..])
    else ReadNumber(s)
  }

  function ReadArr(text: Str): (r: Option<Read<Json>>)
    ensures r.Some? ==> |r.value.rest| < |text|
    decreases |text|, 3
  {
    var inside := Skip(text);
    if inside != [] && inside[0] == 93 then Some(Read(Arr([]), inside[1..])) else ReadItems(text, [])
  }

  function ReadObj(text: Str): (r: Option<Read<Json>>)
    ensures r.Some? ==> |r.value.rest| < |text|
    decreases |text|, 3
  {
    var inside := Skip(text);
    if inside != [] && inside[0] == 125 then Some(Read(Obj([]), inside[1..])) else ReadFields(text, [])
  }

  function ReadItems(text: Str, items: seq<Json>): (r: Option<Read<Json>>)
    ensures r.Some? ==> |r.value.rest| < |text|
    decreases |text|, 2
  {
    var v := ReadValue(text);
    if v.None? then None
    else
      var more, after := items + [v.value.value], Skip(v.value.rest);
      if after == [] then None
      else if after[0] == 93 then Some(Read(Arr(more), after[1..]))
      else if after[0] == COMMA then ReadItems(after[1..], more)
      else None
  }

  function ReadFields(text: Str, fields: seq<Field>): (r: Option<Read<Json>>)
    ensures r.Some? ==> |r.value.rest| < |text|
    decreases |text|, 2
  {
    var s := Skip(text);
    if s == [] || s[0] != QUOTE then None
    else
      var key := ReadString(s[1..]);
      if key.None? then None
      else
        var colon := Skip(key.value.rest);
        if colon == [] || colon[0] != COLON then None
        else
          var v := ReadValue(colon[1..]);
          if v.None? then None
          else
            var more, after := Put(fields, key.value.value, v.value.value), Skip(v.value.rest);
            if after == [] then None
            else if after[0] == 125 then Some(Read(Obj(more), after[1..]))
            else if after[0] == COMMA then ReadFields(after[1..], more)
            else None
  }

  function Parse(text: Str): Option<Json> {
    var r := ReadValue(text);
    if r.Some? && Skip(r.value.rest) == [] then Some(r.value.value) else None
  }

  /* ---- reading back what was written ---- */

  lemma HexDigitReads(d: nat)
    requires d < 16
    ensures HexValue(Hex(d)) == Some(d)
  {
  }

  lemma HexReads(a: nat, b: nat, c: nat, d: nat)
    requires a < 16 && b < 16 && c < 16 && d < 16
    ensures HexUnit([Hex(a), Hex(b), Hex(c), Hex(d)]) == Some(4096 * a + 256 * b + 16 * c + d)
  {
    HexDigitReads(a);
    HexDigitReads(b);
    HexDigitReads(c);
    HexDigitReads(d);
  }

  lemma HexDigits(u: Unit)
    ensures u == 4096 * (u / 4096) + 256 * (u / 256 % 16) + 16 * (u / 16 % 16) + u % 16
  {
    assert u / 256 == 16 * (u / 4096) + u / 256 % 16;
    assert u / 16 == 16 * (u / 256) + u / 16 % 16;
  }

  lemma HexRoundTrip(u: Unit)
    ensures HexUnit(Unicode(u)[2..]) == Some(u)
  {
    var a, b, c, d := u / 4096, u / 256 % 16, u / 16 % 16, u % 16;
    HexDigits(u);
    HexReads(a, b, c, d);
    assert Unicode(u)[2..] == [Hex(a), Hex(b), Hex(c), Hex(d)];
  }

  lemma EscapedReads(u: Unit, rest: Str)
    ensures ReadString(Escaped(u) + rest) == Prepend(u, ReadString(rest))
  {
    var s := Escaped(u) + rest;
    if Short(u) != 0 {
      assert s[0] == BACKSLASH && s[1] == Short(u) && s[2..] == rest;
      assert Unshort(Short(u)) == Some(u) && Short(u) != 117;
    } else if u < 32 || High(u) || Low(u) {
      HexRoundTrip(u);
      assert s[2..6] == Unicode(u)[2..] && s[6..] == rest && s[1] == 117;
    } else {
      assert s[0] == u && s[1..] == rest;
    }
  }

  lemma Assoc(a: Str, b: Str, c: Str)
    ensures (a + b) + c == a + (b + c)
  {
  }

  lemma {:induction false} StringReads(units: Str, rest: Str)
    ensures ReadString(Quoted(units) + rest) == Some(Read(units, rest))
  {
    if units == [] {
      assert ([QUOTE] + rest)[1..] == rest;
    } else if |units| > 1 && High(units[0]) && Low(units[1]) {
      StringReads(units[2..], rest);
      Assoc(units[..2], Quoted(units[2..]), rest);
      assert [units[0]] + ([units[1]] + units[2..]) == units;
    } else {
      StringReads(units[1..], rest);
      EscapedReads(units[0], Quoted(units[1..]) + rest);
      Assoc(Escaped(units[0]), Quoted(units[1..]), rest);
      assert [units[0]] + units[1..] == units;
    }
  }

  /** What follows a value: nothing that would prolong a number. */
  predicate Follows(rest: Str) {
    rest == [] || !NumberUnit(rest[0])
  }

  lemma WriteStarts(t: Json)
    requires WellFormed(t)
    ensures var s := Write(t); s != [] && !Space(s[0]) && s[0] != 93 && s[0] != 125 && s[0] != COMMA
  {
  }

  lemma {:induction false} PrefixOf(token: Str, rest: Str)
    requires (forall i :: 0 <= i < |token| ==> NumberUnit(token[i])) && Follows(rest)
    ensures NumberPrefix(token + rest) == |token|
  {
    if token == [] {
      assert token + rest == rest;
    } else {
      assert (token + rest)[0] == token[0] && (token + rest)[1..] == token[1..] + rest;
      PrefixOf(token[1..], rest);
    }
  }

  lemma NumberReads(token: Str, rest: Str)
    requires NumberToken(token) && Follows(rest)
    ensures ReadNumber(token + rest) == Some(Read(Num(token), rest))
  {
    PrefixOf(token, rest);
    assert (token + rest)[..|token|] == token && (token + rest)[|token|..] == rest;
  }

  lemma LiteralReads(literal: Str, value: Json, rest: Str)
    requires literal != []
    ensures ReadLiteral(literal + rest, literal, value) == Some(Read(value, rest))
  {
    assert (literal + rest)[..|literal|] == literal && (literal + rest)[|literal|..] == rest;
  }

  lemma Bracketed(open: Unit, inside: Str, shut: Unit, rest: Str)
    ensures ([open] + inside + [shut] + rest)[1..] == inside + ([shut] + rest)
  {
    assert [open] + inside + [shut] + rest == [open] + (inside + ([shut] + rest));
  }

  lemma {:induction false} ValueReads(t: Json, rest: Str)
    requires WellFormed(t) && Follows(rest)
    ensures ReadValue(Write(t) + rest) == Some(Read(t, rest))
    decreases t, 1
  {
    var s := Write(t) + rest;
    WriteStarts(t);
    assert s[0] == Write(t)[0];
    match t
    case Null => LiteralReads(NULL_TEXT, Null, rest);
    case Bool(value) => LiteralReads(if value then TRUE_TEXT else FALSE_TEXT, Bool(value), rest);
    case Num(token) =>
      NumberReads(token, rest);
    case Text(units) =>
      StringReads(units, rest);
      Assoc([QUOTE], Quoted(units), rest);
    case Arr(items) =>
      Bracketed(91, WriteItems(items), 93, rest);
      ArrReads(items, rest);
    case Obj(fields) =>
      Bracketed(123, WriteFields(fields), 125, rest);
      ObjReads(fields, rest);
  }

  lemma {:induction false} ArrReads(items: seq<Json>, rest: Str)
    requires forall i :: 0 <= i < |items| ==> WellFormed(items[i])
    ensures ReadArr(WriteItems(items) + ([93] + rest)) == Some(Read(Arr(items), rest))
    decreases items, 3
  {
    if items == [] {
      assert WriteItems(items) + ([93] + rest) == [93] + rest && ([93] + rest)[1..] == rest;
    } else {
      ItemsStart(items, [93] + rest);
      ItemsRead(items, [], rest);
      assert [] + items == items;
    }
  }

  lemma {:induction false} ObjReads(fields: seq<Field>, rest: Str)
    requires Distinct(KeysOf(fields)) && (forall i :: 0 <= i < |fields| ==> WellFormed(fields[i].value))
    ensures ReadObj(WriteFields(fields) + ([125] + rest)) == Some(Read(Obj(fields), rest))
    decreases fields, 3
  {
    if fields == [] {
      assert WriteFields(fields) + ([125] + rest) == [125] + rest && ([125] + rest)[1..] == rest;
    } else {
      assert [] + fields == fields;
      FieldsRead(fields, [], rest);
    }
  }

  lemma ItemsStart(items: seq<Json>, rest: Str)
    requires items != [] && (forall i :: 0 <= i < |items| ==> WellFormed(items[i]))
    ensures var s := WriteItems(items) + rest; s != [] && Skip(s) == s && s[0] != 93
  {
    WriteStarts(items[0]);
    var first := Write(items[0]);
    if |items| == 1 {
      Leads(first, rest);
    } else {
      Separated(first, WriteItems(items[1..]), rest);
      Leads(first, [COMMA] + (WriteItems(items[1..]) + rest));
    }
  }

  lemma Leads(a: Str, b: Str)
    requires a != [] && !Space(a[0])
    ensures (a + b)[0] == a[0] && Skip(a + b) == a + b
  {
  }

  /** One item read off the front, whatever separator comes after it. */
  lemma ItemStep(text: Str, done: seq<Json>, item: Json, after: Str)
    requires ReadValue(text) == Some(Read(item, after)) && after != [] && (after[0] == COMMA || after[0] == 93)
    ensures ReadItems(text, done)
            == if after[0] == 93 then Some(Read(Arr(done + [item]), after[1..])) else ReadItems(after[1..], done + [item])
  {
  }

  /** An item with a separator and more items behind it. */
  lemma ItemThenMore(done: seq<Json>, item: Json, more: Str, tail: Str)
    requires ReadValue(Write(item) + ([COMMA] + (more + tail))) == Some(Read(item, [COMMA] + (more + tail)))
    ensures ReadItems(Write(item) + [COMMA] + more + tail, done) == ReadItems(more + tail, done + [item])
  {
    ItemStep(Write(item) + ([COMMA] + (more + tail)), done, item, [COMMA] + (more + tail));
    Separated(Write(item), more, tail);
  }

  lemma LastItem(done: seq<Json>, item: Json, rest: Str)
    requires ReadValue(Write(item) + ([93] + rest)) == Some(Read(item, [93] + rest))
    ensures ReadItems(Write(item) + ([93] + rest), done) == Some(Read(Arr(done + [item]), rest))
  {
    ItemStep(Write(item) + ([93] + rest), done, item, [93] + rest);
  }

  lemma {:induction false} ItemsRead(items: seq<Json>, done: seq<Json>, rest: Str)
    requires items != [] && (forall i :: 0 <= i < |items| ==> WellFormed(items[i]))
    ensures ReadItems(WriteItems(items) + ([93] + rest), done) == Some(Read(Arr(done + items), rest))
    decreases items, 2
  {
    if |items| == 1 {
      assert items == [items[0]];
      ValueReads(items[0], [93] + rest);
      LastItem(done, items[0], rest);
    } else {
      MoreItemsRead(items, done, rest);
    }
  }

  lemma {:induction false} MoreItemsRead(items: seq<Json>, done: seq<Json>, rest: Str)
    requires |items| > 1 && (forall i :: 0 <= i < |items| ==> WellFormed(items[i]))
    ensures ReadItems(WriteItems(items) + ([93] + rest), done) == Some(Read(Arr(done + items), rest))
    decreases items, 1
  {
    var more, tail := WriteItems(items[1..]), [93] + rest;
    ValueReads(items[0], [COMMA] + (more + tail));
    ItemThenMore(done, items[0], more, tail);
    ItemsRead(items[1..], done + [items[0]], rest);
    assert done + [items[0]] + items[1..] == done + items;
  }

  lemma Separated(a: Str, b: Str, c: Str)
    ensures a + [COMMA] + b + c == a + ([COMMA] + (b + c))
  {
  }

  /** A field with a separator and more fields behind it. */
  lemma FieldThenMore(done: seq<Field>, f: Field, more: Str, tail: Str)
    requires WellFormed(f.value)
    ensures ReadFields(WriteField(f) + [COMMA] + more + tail, done) == ReadFields(more + tail, Put(done, f.key, f.value))
    decreases f, 1
  {
    FieldReads(f, done, [COMMA] + (more + tail));
    Separated(WriteField(f), more, tail);
  }

  lemma LastField(done: seq<Field>, f: Field, rest: Str)
    requires WellFormed(f.value)
    ensures ReadFields(WriteField(f) + ([125] + rest), done) == Some(Read(Obj(Put(done, f.key, f.value)), rest))
    decreases f, 1
  {
    FieldReads(f, done, [125] + rest);
  }

  lemma {:induction false} FieldsRead(fields: seq<Field>, done: seq<Field>, rest: Str)
    requires fields != [] && Distinct(KeysOf(done + fields)) && (forall i :: 0 <= i < |fields| ==> WellFormed(fields[i].value))
    ensures ReadFields(WriteFields(fields) + ([125] + rest), done) == Some(Read(Obj(done + fields), rest))
    decreases fields, 2
  {
    PutNew(done, fields);
    if |fields| == 1 {
      assert fields == [fields[0]];
      LastField(done, fields[0], rest);
    } else {
      var more, tail := WriteFields(fields[1..]), [125] + rest;
      assert ReadFields(more + tail, done + [fields[0]]) == Some(Read(Obj(done + fields), rest)) by {
        assert done + [fields[0]] + fields[1..] == done + fields;
        FieldsRead(fields[1..], done + [fields[0]], rest);
      }
      FieldThenMore(done, fields[0], more, tail);
    }
  }

  lemma PutNew(done: seq<Field>, fields: seq<Field>)
    requires fields != [] && Distinct(KeysOf(done + fields))
    ensures Put(done, fields[0].key, fields[0].value) == done + [fields[0]]
  {
    var keys := KeysOf(done + fields);
    assert keys[|done|] == fields[0].key;
    assert forall i :: 0 <= i < |done| ==> KeysOf(done)[i] == keys[i];
  }

  /** One field read off the front, whatever separator comes after it. */
  lemma FieldStep(text: Str, done: seq<Field>, key: Str, colon: Str, value: Json, after: Str)
    requires text != [] && text[0] == QUOTE && ReadString(text[1..]) == Some(Read(key, colon))
    requires colon != [] && colon[0] == COLON && ReadValue(colon[1..]) == Some(Read(value, after))
    requires after != [] && (after[0] == COMMA || after[0] == 125)
    ensures ReadFields(text, done)
            == if after[0] == 125 then Some(Read(Obj(Put(done, key, value)), after[1..]))
               else ReadFields(after[1..], Put(done, key, value))
  {
    assert Skip(text) == text && Skip(colon) == colon && Skip(after) == after;
  }

  lemma {:induction false} FieldReads(f: Field, done: seq<Field>, after: Str)
    requires WellFormed(f.value) && after != [] && (after[0] == COMMA || after[0] == 125)
    ensures ReadFields(WriteField(f) + after, done)
      == if after[0] == 125 then Some(Read(Obj(Put(done, f.key, f.value)), after[1..]))
         else ReadFields(after[1..], Put(done, f.key, f.value))
    decreases f, 0
  {
    var value := Write(f.value) + after;
    var text := Quoted(f.key) + ([COLON] + value);
    StringReads(f.key, [COLON] + value);
    ValueReads(f.value, after);
    FieldStep([QUOTE] + text, done, f.key, [COLON] + value, f.value, after);
    FieldText(Quoted(f.key), Write(f.value), after);
  }

  lemma FieldText(key: Str, value: Str, after: Str)
    ensures [QUOTE] + key + [COLON] + value + after == [QUOTE] + (key + ([COLON] + (value + after)))
  {
  }

  /** The text of a tree denotes that tree. */
  lemma ParseWrite(t: Json)
    requires WellFormed(t)
    ensures Parse(Write(t)) == Some(t)
  {
    assert Write(t) + [] == Write(t);
    ValueReads(t, []);
  }
}
