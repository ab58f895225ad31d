/** The spelling of JSON text in literal characters, section by section of RFC 8259, and the key
    order and the number grammar in the same terms. */
module JsonSpelling {
  import opened Options
  import opened Json
  import opened JsonText
  import opened CanonicalJson

  /** The code units of a text in the basic plane. */
  function Codes(s: string): (r: Str)
    requires forall i :: 0 <= i < |s| ==> s[i] as int < 0x10000
    ensures |r| == |s| && forall i :: 0 <= i < |s| ==> r[i] == s[i] as int
  {
    seq(|s|, i requires 0 <= i < |s| => s[i] as int)
  }

  /* ---- what is written ---- */

  /** Section 3: the three literal names; a number is written as its token. */
  lemma LiteralNames(token: Str)
    ensures Write(Null) == Codes("null") && Write(Bool(true)) == Codes("true") && Write(Bool(false)) == Codes("false")
    ensures Write(Num(token)) == token
  {
  }

  /** The characters of the grammar, by their code units. */
  lemma Marks()
    ensures Codes("[") == [91] && Codes("]") == [93] && Codes("{") == [123] && Codes("}") == [125]
    ensures Codes(",") == [44] && Codes(":") == [58] && Codes("-") == [45] && Codes("+") == [43] && Codes(".") == [46]
    ensures Codes("e") == [101] && Codes("E") == [69]
  {
  }

  lemma Around(open: Str, a: Str, b: Str, c: Str, close: Str)
    ensures open + (a + b + c) + close == open + a + b + (c + close)
  {
  }

  /** Sections 2 and 5: an array is its items between brackets, with commas between them. */
  lemma ArraySpelled(item: Json, items: seq<Json>)
    ensures Write(Arr([])) == Codes("[]")
    ensures Write(Arr([item])) == Codes("[") + Write(item) + Codes("]")
    ensures items != [] ==> Write(Arr([item] + items)) == Codes("[") + Write(item) + Codes(",") + Write(Arr(items))[1..]
  {
    Marks();
    if items != [] {
      assert ([item] + items)[1..] == items && ([item] + items)[0] == item;
      var rest := WriteItems(items);
      assert Write(Arr(items))[1..] == rest + [93];
      Around([91], Write(item), [44], rest, [93]);
    }
  }

  lemma FieldSpelled(f: Field)
    ensures WriteField(f) == Write(Text(f.key)) + Codes(":") + Write(f.value)
  {
    Marks();
  }

  /** Sections 2 and 4: an object is its fields between braces, each a string, a colon and a value. */
  lemma ObjectSpelled(f: Field, fields: seq<Field>)
    ensures Write(Obj([])) == Codes("{}")
    ensures var field := Write(Text(f.key)) + Codes(":") + Write(f.value);
      && Write(Obj([f])) == Codes("{") + field + Codes("}")
      && (fields != [] ==> Write(Obj([f] + fields)) == Codes("{") + field + Codes(",") + Write(Obj(fields))[1..])
  {
    Marks();
    FieldSpelled(f);
    var field := Write(Text(f.key)) + Codes(":") + Write(f.value);
    assert Write(Obj([f])) == [123] + field + [125];
    if fields != [] {
      assert ([f] + fields)[1..] == fields && ([f] + fields)[0] == f;
      var rest := WriteFields(fields);
      assert Write(Obj(fields))[1..] == rest + [125];
      assert Write(Obj([f] + fields)) == [123] + (field + [44] + rest) + [125];
      Around([123], field, [44], rest, [125]);
    }
  }

  /** The lower-case hexadecimal digit. */
  function HexDigit(d: nat): Str
    requires d < 16
  {
    Codes("0123456789abcdef")[d..d + 1]
  }

  /** Section 7, and well-formed JSON.stringify: how one code unit is written inside a string. */
  function Spelled(u: Unit): Str {
    if u == '\"' as int then Codes("\\\"")
    else if u == '\\' as int then Codes("\\\\")
    else if u == 0x08 then Codes("\\b")
    else if u == 0x09 then Codes("\\t")
    else if u == 0x0A then Codes("\\n")
    else if u == 0x0C then Codes("\\f")
    else if u == 0x0D then Codes("\\r")
    else if u < 0x20 || 0xD800 <= u <= 0xDFFF then
      Codes("\\u") + HexDigit(u / 4096) + HexDigit(u / 256 % 16) + HexDigit(u / 16 % 16) + HexDigit(u % 16)
    else [u]
  }

  predicate PairAt(s: Str) {
    |s| >= 2 && 0xD800 <= s[0] <= 0xDBFF && 0xDC00 <= s[1] <= 0xDFFF
  }

  lemma HexSpelled(d: nat)
    requires d < 16
    ensures HexDigit(d) == [Hex(d)]
  {
  }

  lemma UnitSpelled(u: Unit)
    ensures Escaped(u) == Spelled(u)
  {
    HexSpelled(u / 4096);
    HexSpelled(u / 256 % 16);
    HexSpelled(u / 16 % 16);
    HexSpelled(u % 16);
    assert Codes("\\u") == [92, 117];
  }

  lemma Opened(s: Str)
    ensures Write(Text(s)) == Codes("\"") + Quoted(s) && Write(Text(s))[1..] == Quoted(s)
  {
  }

  /** A string is written between quotation marks, unit by unit; a surrogate pair stands as it is. */
  lemma StringSpelled(s: Str)
    ensures Write(Text([])) == Codes("\"\"")
    ensures s != [] && !PairAt(s) ==> Write(Text(s)) == Codes("\"") + Spelled(s[0]) + Write(Text(s[1..]))[1..]
    ensures PairAt(s) ==> Write(Text(s)) == Codes("\"") + s[..2] + Write(Text(s[2..]))[1..]
  {
    Opened(s);
    if PairAt(s) {
      Opened(s[2..]);
    } else if s != [] {
      UnitSpelled(s[0]);
      Opened(s[1..]);
    }
  }

  /* ---- what is read besides ---- */

  /** Section 2: spaces, tabs and line ends may stand before and after a value. */
  predicate Blank(s: Str) {
    forall i :: 0 <= i < |s| ==> s[i] == ' ' as int || s[i] == '\t' as int || s[i] == '\n' as int || s[i] == '\r' as int
  }

  lemma {:induction false} BlankSkipped(blank: Str, s: Str)
    requires Blank(blank)
    ensures Skip(blank + s) == Skip(s)
  {
    if blank == [] {
      assert blank + s == s;
    } else {
      assert (blank + s)[1..] == blank[1..] + s;
      BlankSkipped(blank[1..], s);
    }
  }

  lemma OneUnitRead(text: Str, u: Unit)
    requires |text| == 3 && text[0] == 92 && text[2] == 34 && Unshort(text[1]) == Some(u)
    ensures ReadString(text) == Some(Read([u], []))
  {
    var end: Str := [34];
    assert end[1..] == [] && ReadString(end) == Some(Read([], []));
    assert text[2..] == end && [u] + [] == [u];
  }

  /** Section 7: the escapes a reader accepts, the solidus among them, and nothing for other letters. */
  lemma EscapesRead()
    ensures ReadString(Codes("\\/\"")) == Some(Read(Codes("/"), []))
    ensures ReadString(Codes("\\b\"")) == Some(Read([0x08], [])) && ReadString(Codes("\\t\"")) == Some(Read([0x09], []))
    ensures ReadString(Codes("\\n\"")) == Some(Read([0x0A], [])) && ReadString(Codes("\\f\"")) == Some(Read([0x0C], []))
    ensures ReadString(Codes("\\r\"")) == Some(Read([0x0D], []))
  {
    assert Codes("/") == [47];
    OneUnitRead(Codes("\\/\""), 47);
    OneUnitRead(Codes("\\b\""), 8);
    OneUnitRead(Codes("\\t\""), 9);
    OneUnitRead(Codes("\\n\""), 10);
    OneUnitRead(Codes("\\f\""), 12);
    OneUnitRead(Codes("\\r\""), 13);
  }

  lemma NoOtherEscape(c: char)
    requires c as int < 0x10000 && c !in "\"\\/bfnrtu"
    ensures ReadString([92, c as int, 34]) == None
  {
    var all := "\"\\/bfnrtu";
    assert all[0] in all && all[1] in all && all[2] in all && all[3] in all && all[4] in all && all[5] in all && all[6] in all && all[7] in all;
  }

  /** A control character may not stand in a string as it is; hexadecimal digits may be of either case. */
  lemma ControlsRefused(u: Unit, s: Str)
    requires u < 0x20
    ensures ReadString([u] + s) == None
  {
    assert ([u] + s)[0] == u;
  }

  lemma HexDigitsRead(d: nat)
    requires d < 16
    ensures HexValue(Codes("0123456789abcdef")[d]) == Some(d)
    ensures d >= 10 ==> HexValue(Codes("ABCDEF")[d - 10]) == Some(d)
  {
  }

  /** A text is one value and blanks, or no JSON. */
  lemma NothingFollows(text: Str)
    ensures Parse(text).Some? ==> ReadValue(text).Some? && Blank(ReadValue(text).value.rest)
  {
    if Parse(text).Some? { SkippedIsBlank(ReadValue(text).value.rest); }
  }

  lemma {:induction false} SkippedIsBlank(s: Str)
    requires Skip(s) == []
    ensures Blank(s)
  {
    if s != [] { SkippedIsBlank(s[1..]); }
  }

  /** Section 4: a name that comes twice in an object keeps its place and has the last value. */
  lemma LastValueWins(key: Str, x: Json, y: Json)
    requires WellFormed(x) && WellFormed(y)
    ensures ReadFields(WriteField(Field(key, x)) + [44] + WriteField(Field(key, y)) + ([125] + []), [])
      == Some(Read(Obj([Field(key, y)]), []))
  {
    var f, g := Field(key, x), Field(key, y);
    FieldThenMore([], f, WriteField(g), [125] + []);
    LastField([f], g, []);
    assert Put([], key, x) == [f];
    assert KeysOf([f])[0] == key;
    assert Put([f], key, y) == [g];
  }

  /* ---- key order ---- */

  /** The decimal numeral of a number. */
  function Numeral(n: nat): Str {
    if n < 10 then Codes("0123456789")[n..n + 1] else Numeral(n / 10) + Codes("0123456789")[n % 10..n % 10 + 1]
  }

  lemma DigitSpelled(d: nat)
    requires d < 10
    ensures Codes("0123456789")[d..d + 1] == [48 + d]
  {
  }

  lemma {:induction false} NumeralReads(n: nat)
    ensures Numeral(n) != [] && (forall i :: 0 <= i < |Numeral(n)| ==> Digit(Numeral(n)[i]))
    ensures (Numeral(n)[0] == 48 <==> n == 0) && (n == 0 ==> |Numeral(n)| == 1) && IndexValue(Numeral(n)) == n
  {
    if n < 10 {
      DigitSpelled(n);
      assert Numeral(n)[..0] == [];
    } else {
      DigitSpelled(n % 10);
      NumeralReads(n / 10);
      assert Numeral(n)[..|Numeral(n)| - 1] == Numeral(n / 10);
    }
  }

  lemma {:induction false} NumeralOf(key: Str)
    requires key != [] && (forall i :: 0 <= i < |key| ==> Digit(key[i])) && (key[0] == 48 ==> |key| == 1)
    ensures key == Numeral(IndexValue(key)) && (IndexValue(key) == 0 <==> key[0] == 48)
    decreases |key|
  {
    var rest, d := key[..|key| - 1], key[|key| - 1] - 48;
    DigitSpelled(d);
    assert key == rest + [48 + d];
    if rest != [] {
      NumeralOf(rest);
      assert IndexValue(key) == 10 * IndexValue(rest) + d && IndexValue(key) / 10 == IndexValue(rest);
    } else {
      assert IndexValue(rest) == 0;
    }
  }

  /** An integer-index key is the decimal numeral of a number up to 4294967294, and has its value. */
  lemma IndexKeysExactly(key: Str)
    ensures IsIndex(key) <==> exists n: nat :: n <= 4294967294 && key == Numeral(n)
    ensures IsIndex(key) ==> key == Numeral(IndexValue(key))
  {
    if IsIndex(key) {
      NumeralOf(key);
      assert IndexValue(key) <= 4294967294;
    }
    if n: nat :| n <= 4294967294 && key == Numeral(n) {
      NumeralReads(n);
    }
  }

  /** One key is below another if it is a proper prefix, or smaller at the first unit that differs. */
  lemma {:induction false} BelowExactly(a: Str, b: Str)
    ensures Below(a, b) <==> exists k: nat :: PartAt(a, b, k)
  {
    if a == [] || b == [] || a[0] != b[0] {
      assert PartAt(a, b, 0) <==> Below(a, b);
      forall k: nat | PartAt(a, b, k) ensures k == 0 {
        if k > 0 { SameStart(a, b, k); }
      }
    } else {
      BelowExactly(a[1..], b[1..]);
      forall k: nat ensures PartAt(a, b, k + 1) <==> PartAt(a[1..], b[1..], k) { PartMoves(a, b, k); }
      if Below(a, b) {
        var k: nat :| PartAt(a[1..], b[1..], k);
        assert PartAt(a, b, k + 1);
      }
      if k: nat :| PartAt(a, b, k) {
        PartMoves(a, b, k - 1);
        assert PartAt(a[1..], b[1..], k - 1);
      }
    }
  }

  lemma SameStart(a: Str, b: Str, k: nat)
    requires 0 < k <= |a| && k <= |b| && a[..k] == b[..k]
    ensures a[0] == b[0]
  {
    assert a[..k][0] == a[0] && b[..k][0] == b[0];
  }

  lemma PartMoves(a: Str, b: Str, k: nat)
    requires a != [] && b != [] && a[0] == b[0]
    ensures PartAt(a, b, k + 1) <==> PartAt(a[1..], b[1..], k)
  {
    if k + 1 <= |a| && k + 1 < |b| {
      assert a[..k + 1] == [a[0]] + a[1..][..k] && b[..k + 1] == [b[0]] + b[1..][..k];
      assert a[..k + 1][1..] == a[1..][..k] && b[..k + 1][1..] == b[1..][..k];
    }
  }

  predicate PartAt(a: Str, b: Str, k: nat) {
    k <= |a| && k < |b| && a[..k] == b[..k] && (k == |a| || a[k] < b[k])
  }

  /* ---- numbers ---- */

  /** The pieces of a number token (section 6): an optional minus, an integer without a leading zero,
      an optional fraction, an optional exponent with an optional sign. */
  datatype Token = Token(minus: bool, whole: Str, fraction: Str, exponent: Option<Exponent>)
  datatype Exponent = Exponent(capital: bool, sign: Sign, digits: Str)
  datatype Sign = NoSign | Plus | Minus

  predicate Numerals(s: Str) {
    forall i :: 0 <= i < |s| ==> '0' as int <= s[i] <= '9' as int
  }

  predicate Grammatical(t: Token) {
    && t.whole != [] && Numerals(t.whole) && (t.whole[0] == '0' as int ==> |t.whole| == 1)
    && Numerals(t.fraction) && (t.exponent.Some? ==> t.exponent.value.digits != [] && Numerals(t.exponent.value.digits))
  }

  function SignText(sign: Sign): Str {
    match sign case NoSign => [] case Plus => Codes("+") case Minus => Codes("-")
  }

  function FractionText(fraction: Str): Str {
    if fraction == [] then [] else Codes(".") + fraction
  }

  function ExponentText(e: Option<Exponent>): Str {
    if e.None? then [] else (if e.value.capital then Codes("E") else Codes("e")) + (SignText(e.value.sign) + e.value.digits)
  }

  function TokenText(t: Token): Str {
    SignText(if t.minus then Minus else NoSign) + (t.whole + (FractionText(t.fraction) + ExponentText(t.exponent)))
  }

  lemma {:induction false} DigitsOf(a: Str, b: Str)
    requires Numerals(a) && (b == [] || !Digit(b[0]))
    ensures Digits(a + b) == |a|
  {
    if a == [] {
      assert a + b == b;
    } else {
      assert (a + b)[1..] == a[1..] + b;
      DigitsOf(a[1..], b);
    }
  }

  lemma {:induction false} DigitsSplit(s: Str)
    ensures Numerals(s[..Digits(s)]) && (Digits(s) < |s| ==> !Digit(s[Digits(s)]))
  {
    if s != [] && Digit(s[0]) {
      DigitsSplit(s[1..]);
      assert s[..Digits(s)] == [s[0]] + s[1..][..Digits(s[1..])];
    }
  }

  predicate Units(s: Str) {
    forall i :: 0 <= i < |s| ==> NumberUnit(s[i])
  }

  lemma ExponentReads(e: Option<Exponent>)
    requires e.Some? ==> e.value.digits != [] && Numerals(e.value.digits)
    ensures var s := ExponentText(e); ExponentPart(s) && Units(s) && (s != [] ==> !Digit(s[0]) && s[0] != 46)
  {
    if e.Some? {
      var s, digits := ExponentText(e), e.value.digits;
      DigitsOf(digits, []);
      assert digits + [] == digits;
      if e.value.sign.NoSign? {
        assert s[1..] == digits;
      } else {
        assert s[2..] == digits;
      }
    }
  }

  lemma FractionReads(fraction: Str, e: Str)
    requires Numerals(fraction) && ExponentPart(e) && Units(e) && (e != [] ==> !Digit(e[0]) && e[0] != 46)
    ensures var s := FractionText(fraction) + e; FractionPart(s) && Units(s) && (s != [] ==> !Digit(s[0]))
  {
    Marks();
    if fraction == [] {
      assert FractionText(fraction) + e == e;
    } else {
      PointReads(fraction, e);
      assert FractionText(fraction) + e == [46] + (fraction + e);
    }
  }

  lemma PointReads(fraction: Str, e: Str)
    requires fraction != [] && Numerals(fraction) && ExponentPart(e) && Units(e) && (e != [] ==> !Digit(e[0]))
    ensures FractionPart([46] + (fraction + e)) && Units([46] + (fraction + e))
  {
    var s := [46] + (fraction + e);
    DigitsOf(fraction, e);
    assert s[1..] == fraction + e && s[1 + |fraction|..] == e;
  }

  lemma WholeReads(whole: Str, tail: Str)
    requires whole != [] && Numerals(whole) && (whole[0] == 48 ==> |whole| == 1)
    requires FractionPart(tail) && Units(tail) && (tail != [] ==> !Digit(tail[0]))
    ensures NumberToken(whole + tail) && NumberToken([45] + (whole + tail))
  {
    var unsigned := whole + tail;
    DigitsOf(whole, tail);
    assert unsigned[|whole|..] == tail && ([45] + unsigned)[1..] == unsigned;
  }

  lemma TokenReads(t: Token)
    requires Grammatical(t)
    ensures NumberToken(TokenText(t))
  {
    var e := ExponentText(t.exponent);
    ExponentReads(t.exponent);
    FractionReads(t.fraction, e);
    WholeReads(t.whole, FractionText(t.fraction) + e);
    Marks();
    assert !t.minus ==> TokenText(t) == t.whole + (FractionText(t.fraction) + e);
  }

  /** What stands before the digits of an exponent, and the digits. */
  lemma SignThenDigits(s: Str) returns (sign: Sign, digits: Str)
    requires s != []
    ensures digits == (if s[0] == 43 || s[0] == 45 then s[1..] else s) && s == SignText(sign) + digits
  {
    Marks();
    if s[0] == 43 {
      sign, digits := Plus, s[1..];
      assert s == [43] + digits;
    } else if s[0] == 45 {
      sign, digits := Minus, s[1..];
      assert s == [45] + digits;
    } else {
      sign, digits := NoSign, s;
      assert s == [] + s;
    }
  }

  lemma ExponentSpells(s: Str) returns (e: Option<Exponent>)
    requires ExponentPart(s)
    ensures (e.Some? ==> e.value.digits != [] && Numerals(e.value.digits)) && ExponentText(e) == s
  {
    if s == [] { return None; }
    var sign, digits := SignThenDigits(s[1..]);
    assert digits == if s[1] == 43 || s[1] == 45 then s[2..] else s[1..];
    DigitsSplit(digits);
    assert digits[..|digits|] == digits;
    Marks();
    assert s == [s[0]] + s[1..];
    e := Some(Exponent(s[0] == 69, sign, digits));
  }

  /** The digits behind a point, and what follows them. */
  lemma PointSplits(s: Str) returns (digits: Str, rest: Str)
    requires s != [] && s[0] == 46 && FractionPart(s)
    ensures digits != [] && Numerals(digits) && ExponentPart(rest) && s == [46] + digits + rest
  {
    var n, more := Digits(s[1..]), s[1..];
    DigitsSplit(more);
    digits, rest := more[..n], s[1 + n..];
    Halves(more, n);
    assert more[n..] == rest && s == [46] + more;
  }

  lemma FractionSpells(s: Str) returns (fraction: Str, e: Option<Exponent>)
    requires FractionPart(s)
    ensures Numerals(fraction) && (e.Some? ==> e.value.digits != [] && Numerals(e.value.digits))
    ensures FractionText(fraction) + ExponentText(e) == s
  {
    if s != [] && s[0] == 46 {
      Marks();
      var rest;
      fraction, rest := PointSplits(s);
      e := ExponentSpells(rest);
    } else {
      fraction := [];
      e := ExponentSpells(s);
      assert [] + s == s;
    }
  }

  lemma TokenSpells(s: Str) returns (t: Token)
    requires NumberToken(s)
    ensures Grammatical(t) && TokenText(t) == s
  {
    Marks();
    var unsigned := if s[0] == 45 then s[1..] else s;
    var n := Digits(unsigned);
    DigitsSplit(unsigned);
    var fraction, e := FractionSpells(unsigned[n..]);
    t := Token(s[0] == 45, unsigned[..n], fraction, e);
    SignSplits(s, unsigned);
    Halves(unsigned, n);
  }

  lemma SignSplits(s: Str, unsigned: Str)
    requires s != [] && unsigned == (if s[0] == 45 then s[1..] else s)
    ensures s == SignText(if s[0] == 45 then Minus else NoSign) + unsigned
  {
    Marks();
  }

  lemma Halves(s: Str, n: nat)
    requires n <= |s|
    ensures s == s[..n] + s[n..]
  {
  }

  /** A number token is exactly what the grammar spells. */
  lemma NumberTokensExactly(s: Str)
    ensures NumberToken(s) <==> exists t :: Grammatical(t) && TokenText(t) == s
  {
    if NumberToken(s) { var t := TokenSpells(s); }
    if t :| Grammatical(t) && TokenText(t) == s { TokenReads(t); }
  }
}
