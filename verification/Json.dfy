/** JSON trees as JavaScript holds them: an object keeps its keys in insertion order and lists
    them in its own enumeration order. Strings are sequences of UTF-16 code units. */
module Json {
  type Unit = u: nat | u < 0x10000
  type Str = seq<Unit>

  /** A number is its JSON token: what Number::toString gives for a finite value. */
  datatype Json =
    | Null | Bool(value: bool) | Num(token: Str) | Text(units: Str)
    | Arr(items: seq<Json>) | Obj(fields: seq<Field>)

  datatype Field = Field(key: Str, value: Json)

  function KeysOf(fields: seq<Field>): (keys: seq<Str>) {
    seq(|fields|, i requires 0 <= i < |fields| => fields[i].key)
  }

  predicate Distinct(keys: seq<Str>) {
    forall i, j :: 0 <= i < j < |keys| ==> keys[i] != keys[j]
  }

  function IndexOf(fields: seq<Field>, key: Str): (i: nat)
    requires key in KeysOf(fields)
    ensures i < |fields| && fields[i].key == key
  {
    if fields[0].key == key then 0
    else
      assert KeysOf(fields) == [fields[0].key] + KeysOf(fields[1..]);
      1 + IndexOf(fields[1..], key)
  }

  lemma IndexUnique(fields: seq<Field>, i: nat)
    requires Distinct(KeysOf(fields)) && i < |fields|
    ensures fields[i].key in KeysOf(fields) && IndexOf(fields, fields[i].key) == i
  {
    assert KeysOf(fields)[i] == fields[i].key;
    var j := IndexOf(fields, fields[i].key);
    assert KeysOf(fields)[j] == KeysOf(fields)[i];
  }

  /* ---- key orders ---- */

  /** Order by UTF-16 code units. */
  predicate Below(a: Str, b: Str) {
    if a == [] then b != []
    else b != [] && (a[0] < b[0] || (a[0] == b[0] && Below(a[1..], b[1..])))
  }

  lemma {:induction false} BelowTotal(a: Str, b: Str)
    ensures (Below(a, b) && !Below(b, a) && a != b) || (Below(b, a) && !Below(a, b) && a != b)
            || (a == b && !Below(a, b))
  {
    if a != [] && b != [] {
      BelowTotal(a[1..], b[1..]);
      assert a == [a[0]] + a[1..] && b == [b[0]] + b[1..];
    }
  }

  lemma {:induction false} BelowTransitive(a: Str, b: Str, c: Str)
    requires Below(a, b) && Below(b, c)
    ensures Below(a, c)
  {
    if a != [] {
      if a[0] == b[0] == c[0] { BelowTransitive(a[1..], b[1..], c[1..]); }
    }
  }

  predicate Digit(u: Unit) {
    48 <= u <= 57
  }

  function IndexValue(key: Str): nat {
    if key == [] then 0
    else 10 * IndexValue(key[..|key| - 1]) + (if Digit(key[|key| - 1]) then key[|key| - 1] - 48 else 0)
  }

  /** An array index in canonical decimal form: at most 2^32 - 2. */
  predicate IsIndex(key: Str) {
    && key != [] && (forall i :: 0 <= i < |key| ==> Digit(key[i]))
    && (key[0] == 48 ==> |key| == 1)
    && IndexValue(key) < 0xFFFF_FFFF
  }

  /** The comparison of one of the two sorts: by code units, or by index value. */
  predicate Precedes(byIndex: bool, a: Str, b: Str) {
    if byIndex then IndexValue(a) <= IndexValue(b) else Below(a, b) || a == b
  }

  function Insert(byIndex: bool, key: Str, keys: seq<Str>): (r: seq<Str>)
    ensures |r| == |keys| + 1 && (forall k :: k in r <==> k == key || k in keys)
  {
    if keys == [] then [key]
    else if Precedes(byIndex, key, keys[0]) then [key] + keys
    else [keys[0]] + Insert(byIndex, key, keys[1..])
  }

  function Sort(byIndex: bool, keys: seq<Str>): (r: seq<Str>)
    ensures |r| == |keys| && (forall k :: k in r <==> k in keys)
  {
    if keys == [] then [] else Insert(byIndex, keys[0], Sort(byIndex, keys[1..]))
  }

  function Select(indices: bool, keys: seq<Str>): (r: seq<Str>)
    ensures forall k :: k in r <==> k in keys && IsIndex(k) == indices
  {
    if keys == [] then []
    else if IsIndex(keys[0]) == indices then [keys[0]] + Select(indices, keys[1..])
    else Select(indices, keys[1..])
  }

  /** Property order: the index keys in numeric order, then the others as they were inserted
      (OrdinaryOwnPropertyKeys, section 10.1.11.1 of ECMA-262). */
  function Enumerated(keys: seq<Str>): seq<Str> {
    Sort(true, Select(true, keys)) + Select(false, keys)
  }

  datatype Order = Enumeration | Sorted

  function InOrder(order: Order, keys: seq<Str>): seq<Str> {
    if order.Enumeration? then Enumerated(keys) else Sort(false, Enumerated(keys))
  }

  predicate Permutes(keys: seq<Str>, others: seq<Str>) {
    && |keys| == |others| && Distinct(others)
    && (forall i :: 0 <= i < |keys| ==> keys[i] in others)
    && (forall i :: 0 <= i < |others| ==> others[i] in keys)
  }

  lemma {:induction false} InsertDistinct(byIndex: bool, key: Str, keys: seq<Str>)
    requires Distinct(keys) && key !in keys
    ensures Distinct(Insert(byIndex, key, keys))
  {
    if keys != [] && !Precedes(byIndex, key, keys[0]) {
      InsertDistinct(byIndex, key, keys[1..]);
      var r := Insert(byIndex, key, keys[1..]);
      assert forall j :: 0 <= j < |r| ==> r[j] in r;
    }
  }

  lemma {:induction false} SortDistinct(byIndex: bool, keys: seq<Str>)
    requires Distinct(keys)
    ensures Distinct(Sort(byIndex, keys))
  {
    if keys != [] {
      SortDistinct(byIndex, keys[1..]);
      InsertDistinct(byIndex, keys[0], Sort(byIndex, keys[1..]));
    }
  }

  lemma {:induction false} SelectDistinct(indices: bool, keys: seq<Str>)
    requires Distinct(keys)
    ensures Distinct(Select(indices, keys))
  {
    if keys != [] { SelectDistinct(indices, keys[1..]); }
  }

  lemma {:induction false} SelectSplits(keys: seq<Str>)
    ensures |Select(true, keys)| + |Select(false, keys)| == |keys|
  {
    if keys != [] { SelectSplits(keys[1..]); }
  }

  lemma DistinctConcat(a: seq<Str>, b: seq<Str>)
    requires Distinct(a) && Distinct(b) && (forall k :: k in a ==> k !in b)
    ensures Distinct(a + b)
  {
    assert forall i :: 0 <= i < |a| ==> a[i] in a;
    assert forall i :: 0 <= i < |b| ==> b[i] in b;
  }

  lemma InOrderPermutes(order: Order, keys: seq<Str>)
    requires Distinct(keys)
    ensures Permutes(keys, InOrder(order, keys))
  {
    SelectDistinct(true, keys);
    SelectDistinct(false, keys);
    SelectSplits(keys);
    SortDistinct(true, Select(true, keys));
    var e := Enumerated(keys);
    forall k ensures k in e <==> k in keys {
      assert k in e <==> k in Sort(true, Select(true, keys)) || k in Select(false, keys);
    }
    DistinctConcat(Sort(true, Select(true, keys)), Select(false, keys));
    SortDistinct(false, e);
  }

  predicate Ascends(keys: seq<Str>) {
    forall i, j :: 0 <= i < j < |keys| ==> Below(keys[i], keys[j])
  }

  lemma {:induction false} InsertAscends(key: Str, keys: seq<Str>)
    requires Ascends(keys) && key !in keys
    ensures Ascends(Insert(false, key, keys))
  {
    if keys != [] {
      BelowTotal(key, keys[0]);
      if Below(key, keys[0]) {
        forall j | 0 <= j < |keys| ensures Below(key, keys[j]) {
          if j > 0 { BelowTransitive(key, keys[0], keys[j]); }
        }
      } else {
        InsertAscends(key, keys[1..]);
        var r := Insert(false, key, keys[1..]);
        forall j | 0 <= j < |r| ensures Below(keys[0], r[j]) {
          assert r[j] in r;
        }
      }
    }
  }

  lemma {:induction false} SortAscends(keys: seq<Str>)
    requires Distinct(keys)
    ensures Ascends(Sort(false, keys))
  {
    if keys != [] {
      SortAscends(keys[1..]);
      InsertAscends(keys[0], Sort(false, keys[1..]));
    }
  }

  lemma FirstIsLeast(a: seq<Str>, k: Str)
    requires Ascends(a) && k in a
    ensures a[0] == k || Below(a[0], k)
  {
  }

  /** A sorted arrangement is determined by the keys in it. */
  lemma {:induction false} AscendingUnique(a: seq<Str>, b: seq<Str>)
    requires |a| == |b| && Ascends(a) && Ascends(b) && (forall k :: k in a <==> k in b)
    ensures a == b
  {
    if a != [] {
      assert a[0] in b && b[0] in a;
      FirstIsLeast(a, b[0]);
      FirstIsLeast(b, a[0]);
      BelowTotal(a[0], b[0]);
      forall k ensures k in a[1..] <==> k in b[1..] {
        TailMember(a, k);
        TailMember(b, k);
      }
      AscendingUnique(a[1..], b[1..]);
      assert a == [a[0]] + a[1..] && b == [b[0]] + b[1..];
    }
  }

  lemma TailMember(a: seq<Str>, k: Str)
    requires Ascends(a) && a != []
    ensures k in a[1..] <==> k in a && k != a[0]
  {
    BelowTotal(a[0], a[0]);
  }

  /* ---- trees ---- */

  predicate NumberUnit(u: Unit) {
    Digit(u) || u == 43 || u == 45 || u == 46 || u == 69 || u == 101
  }

  function Digits(s: Str): (n: nat)
    ensures n <= |s|
  {
    if s == [] || !Digit(s[0]) then 0 else 1 + Digits(s[1..])
  }

  predicate ExponentPart(s: Str) {
    s == [] || (
      && (s[0] == 69 || s[0] == 101) && |s| > 1
      && var digits := if s[1] == 43 || s[1] == 45 then s[2..] else s[1..];
      digits != [] && Digits(digits) == |digits|)
  }

  predicate FractionPart(s: Str) {
    if s != [] && s[0] == 46 then Digits(s[1..]) > 0 && ExponentPart(s[1 + Digits(s[1..])..]) else ExponentPart(s)
  }

  /** The number grammar of RFC 8259, section 6. */
  predicate NumberToken(s: Str) {
    && (forall i :: 0 <= i < |s| ==> NumberUnit(s[i])) && s != []
    && var unsigned := if s[0] == 45 then s[1..] else s;
    && Digits(unsigned) > 0 && (unsigned[0] == 48 ==> Digits(unsigned) == 1)
    && FractionPart(unsigned[Digits(unsigned)..])
  }

  predicate WellFormed(t: Json) {
    match t
    case Null => true
    case Bool(_) => true
    case Num(token) => NumberToken(token)
    case Text(_) => true
    case Arr(items) => forall i :: 0 <= i < |items| ==> WellFormed(items[i])
    case Obj(fields) => Distinct(KeysOf(fields)) && forall i :: 0 <= i < |fields| ==> WellFormed(fields[i].value)
  }

  /** Equal up to key order at every depth. */
  predicate Same(t: Json, u: Json) {
    match (t, u)
    case (Arr(a), Arr(b)) => |a| == |b| && forall i :: 0 <= i < |a| ==> Same(a[i], b[i])
    case (Obj(f), Obj(g)) =>
      && |f| == |g| && (forall i :: 0 <= i < |f| ==> f[i].key in KeysOf(g))
      && (forall j :: 0 <= j < |g| ==> g[j].key in KeysOf(f))
      && (forall i, j :: 0 <= i < |f| && 0 <= j < |g| && f[i].key == g[j].key ==> Same(f[i].value, g[j].value))
    case (_, _) => t == u
  }

  /** Every object of the tree rebuilt with its keys inserted in the given order. */
  function Arrange(order: Order, t: Json): Json
    requires WellFormed(t)
  {
    match t
    case Null => t
    case Bool(_) => t
    case Num(_) => t
    case Text(_) => t
    case Arr(items) => Arr(seq(|items|, i requires 0 <= i < |items| => Arrange(order, items[i])))
    case Obj(fields) =>
      InOrderPermutes(order, KeysOf(fields));
      var keys := InOrder(order, KeysOf(fields));
      Obj(seq(|keys|, i requires 0 <= i < |keys| =>
        Field(keys[i], Arrange(order, fields[IndexOf(fields, keys[i])].value))))
  }

  /* ---- the sorted arrangement is a normal form ---- */

  lemma SortedKeysAgree(f: seq<Field>, g: seq<Field>)
    requires Distinct(KeysOf(f)) && Distinct(KeysOf(g)) && |f| == |g|
    requires forall k :: k in KeysOf(f) <==> k in KeysOf(g)
    ensures InOrder(Sorted, KeysOf(f)) == InOrder(Sorted, KeysOf(g))
  {
    InOrderPermutes(Enumeration, KeysOf(f));
    InOrderPermutes(Enumeration, KeysOf(g));
    SortAscends(Enumerated(KeysOf(f)));
    SortAscends(Enumerated(KeysOf(g)));
    AscendingUnique(InOrder(Sorted, KeysOf(f)), InOrder(Sorted, KeysOf(g)));
  }

  lemma {:induction false} SameSorts(t: Json, u: Json)
    requires WellFormed(t) && WellFormed(u) && Same(t, u)
    ensures Arrange(Sorted, t) == Arrange(Sorted, u)
  {
    if t.Arr? {
      forall i | 0 <= i < |t.items| ensures Arrange(Sorted, t.items[i]) == Arrange(Sorted, u.items[i]) {
        SameSorts(t.items[i], u.items[i]);
      }
    } else if t.Obj? {
      var f, g := t.fields, u.fields;
      SortedKeysAgree(f, g);
      InOrderPermutes(Sorted, KeysOf(f));
      var keys := InOrder(Sorted, KeysOf(f));
      forall i | 0 <= i < |keys|
        ensures Arrange(Sorted, f[IndexOf(f, keys[i])].value) == Arrange(Sorted, g[IndexOf(g, keys[i])].value)
      {
        SameSorts(f[IndexOf(f, keys[i])].value, g[IndexOf(g, keys[i])].value);
      }
    }
  }

  /** What the arrangement of an object holds for one of its fields. */
  lemma FieldArranged(order: Order, t: Json, i: nat) returns (p: nat)
    requires WellFormed(t) && t.Obj? && i < |t.fields|
    ensures Arrange(order, t).Obj? && p < |Arrange(order, t).fields|
    ensures Arrange(order, t).fields[p] == Field(t.fields[i].key, Arrange(order, t.fields[i].value))
  {
    var keys := InOrder(order, KeysOf(t.fields));
    InOrderPermutes(order, KeysOf(t.fields));
    assert KeysOf(t.fields)[i] in keys;
    p :| 0 <= p < |keys| && keys[p] == t.fields[i].key;
    IndexUnique(t.fields, i);
  }

  lemma {:induction false} SortsSame(t: Json, u: Json)
    requires WellFormed(t) && WellFormed(u) && Arrange(Sorted, t) == Arrange(Sorted, u)
    ensures Same(t, u)
  {
    if t.Arr? {
      forall i | 0 <= i < |t.items| ensures Same(t.items[i], u.items[i]) {
        assert Arrange(Sorted, t).items[i] == Arrange(Sorted, u).items[i];
        SortsSame(t.items[i], u.items[i]);
      }
    } else if t.Obj? {
      ArrangedKeys(Sorted, t);
      ArrangedKeys(Sorted, u);
      forall i, j | 0 <= i < |t.fields| && 0 <= j < |u.fields| && t.fields[i].key == u.fields[j].key
        ensures Same(t.fields[i].value, u.fields[j].value)
      {
        var p := FieldArranged(Sorted, t, i);
        var q := FieldArranged(Sorted, u, j);
        IndexUnique(Arrange(Sorted, t).fields, p);
        IndexUnique(Arrange(Sorted, t).fields, q);
        SortsSame(t.fields[i].value, u.fields[j].value);
      }
    }
  }

  lemma ArrangedKeys(order: Order, t: Json)
    requires WellFormed(t) && t.Obj?
    ensures Arrange(order, t).Obj? && KeysOf(Arrange(order, t).fields) == InOrder(order, KeysOf(t.fields))
    ensures Permutes(KeysOf(t.fields), KeysOf(Arrange(order, t).fields))
    ensures |Arrange(order, t).fields| == |t.fields|
    ensures forall i :: 0 <= i < |t.fields| ==> t.fields[i].key in KeysOf(Arrange(order, t).fields)
    ensures forall i :: 0 <= i < |t.fields| ==> Arrange(order, t).fields[i].key in KeysOf(t.fields)
    ensures forall k :: k in KeysOf(t.fields) <==> k in KeysOf(Arrange(order, t).fields)
  {
    InOrderPermutes(order, KeysOf(t.fields));
    var keys := InOrder(order, KeysOf(t.fields));
    assert KeysOf(Arrange(order, t).fields) == keys;
    assert forall i :: 0 <= i < |t.fields| ==> KeysOf(t.fields)[i] == t.fields[i].key;
    assert forall i :: 0 <= i < |t.fields| ==> keys[i] == Arrange(order, t).fields[i].key;
  }

  /** Rebuilding a tree in any order gives a well-formed tree that is the same. */
  lemma {:induction false} ArrangeSame(order: Order, t: Json)
    requires WellFormed(t)
    ensures WellFormed(Arrange(order, t)) && Same(t, Arrange(order, t))
  {
    var u := Arrange(order, t);
    if t.Arr? {
      forall i | 0 <= i < |t.items| ensures WellFormed(u.items[i]) && Same(t.items[i], u.items[i]) {
        ArrangeSame(order, t.items[i]);
      }
    } else if t.Obj? {
      ArrangedKeys(order, t);
      forall i | 0 <= i < |t.fields| ensures WellFormed(Arrange(order, t.fields[i].value)) && Same(t.fields[i].value, Arrange(order, t.fields[i].value)) {
        ArrangeSame(order, t.fields[i].value);
      }
      forall i, j | 0 <= i < |t.fields| && 0 <= j < |u.fields| && t.fields[i].key == u.fields[j].key
        ensures Same(t.fields[i].value, u.fields[j].value)
      {
        IndexUnique(t.fields, i);
      }
    }
  }
}
