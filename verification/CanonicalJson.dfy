/** The canonical form shared by storage and replay: stringify, parse, rebuild with sorted keys,
    stringify again. */
module CanonicalJson {
  import opened Options
  import opened Json
  import opened JsonText

  /** JSON.stringify of a tree: every object lists its keys in its own enumeration order. */
  function Stringify(t: Json): Str
    requires WellFormed(t)
  {
    ArrangeSame(Enumeration, t);
    Write(Arrange(Enumeration, t))
  }

  lemma ParseStringify(t: Json)
    requires WellFormed(t)
    ensures WellFormed(Arrange(Enumeration, t)) && Parse(Stringify(t)) == Some(Arrange(Enumeration, t))
  {
    ArrangeSame(Enumeration, t);
    ParseWrite(Arrange(Enumeration, t));
  }

  function Canonicalize(t: Json): Json
    requires WellFormed(t)
  {
    Arrange(Sorted, t)
  }

  function CanonicalStringify(t: Json): Str
    requires WellFormed(t)
  {
    ParseStringify(t);
    var parsed := Parse(Stringify(t)).value;
    ArrangeSame(Sorted, parsed);
    Stringify(Canonicalize(parsed))
  }

  /* ---- Same is an equivalence ---- */

  lemma SameSymmetric(t: Json, u: Json)
    requires WellFormed(t) && WellFormed(u) && Same(t, u)
    ensures Same(u, t)
  {
    SameSorts(t, u);
    SortsSame(u, t);
  }

  lemma SameTransitive(t: Json, u: Json, v: Json)
    requires WellFormed(t) && WellFormed(u) && WellFormed(v) && Same(t, u) && Same(u, v)
    ensures Same(t, v)
  {
    SameSorts(t, u);
    SameSorts(u, v);
    SortsSame(t, v);
  }

  /* ---- the normal form ---- */

  /** The canonical string denotes a tree that is the same, up to key order at every depth. */
  lemma CanonicalDenotes(t: Json)
    requires WellFormed(t)
    ensures var r := Parse(CanonicalStringify(t)); r.Some? && WellFormed(r.value) && Same(t, r.value)
  {
    var parsed := Arrange(Enumeration, t);
    ParseStringify(t);
    ArrangeSame(Enumeration, t);
    ArrangeSame(Sorted, parsed);
    var sorted := Arrange(Sorted, parsed);
    ParseStringify(sorted);
    ArrangeSame(Enumeration, sorted);
    SameTransitive(t, parsed, sorted);
    SameTransitive(t, sorted, Arrange(Enumeration, sorted));
  }

  lemma SameString(t: Json, u: Json)
    requires WellFormed(t) && WellFormed(u) && CanonicalStringify(t) == CanonicalStringify(u)
    ensures Same(t, u)
  {
    CanonicalDenotes(t);
    CanonicalDenotes(u);
    var r := Parse(CanonicalStringify(t)).value;
    SameSymmetric(u, r);
    SameTransitive(t, r, u);
  }

  lemma EnumeratedSame(t: Json, u: Json)
    requires WellFormed(t) && WellFormed(u) && Same(t, u)
    ensures WellFormed(Arrange(Enumeration, t)) && WellFormed(Arrange(Enumeration, u))
    ensures Same(Arrange(Enumeration, t), Arrange(Enumeration, u))
  {
    var p, q := Arrange(Enumeration, t), Arrange(Enumeration, u);
    ArrangeSame(Enumeration, t);
    ArrangeSame(Enumeration, u);
    SameSymmetric(t, p);
    SameTransitive(p, t, u);
    SameTransitive(p, u, q);
  }

  lemma SameCanonical(t: Json, u: Json)
    requires WellFormed(t) && WellFormed(u) && Same(t, u)
    ensures CanonicalStringify(t) == CanonicalStringify(u)
  {
    ParseStringify(t);
    ParseStringify(u);
    EnumeratedSame(t, u);
    SameSorts(Arrange(Enumeration, t), Arrange(Enumeration, u));
  }

  /** Trees have the same canonical string exactly when they are equal up to key order at every
      depth. */
  lemma CanonicalIffSame(t: Json, u: Json)
    requires WellFormed(t) && WellFormed(u)
    ensures CanonicalStringify(t) == CanonicalStringify(u) <==> Same(t, u)
  {
    if CanonicalStringify(t) == CanonicalStringify(u) { SameString(t, u); }
    if Same(t, u) { SameCanonical(t, u); }
  }

  /** Canonicalizing what a canonical string denotes gives the string back. */
  lemma CanonicalIdempotent(t: Json)
    requires WellFormed(t)
    ensures var r := Parse(CanonicalStringify(t)); r.Some? && WellFormed(r.value) && CanonicalStringify(r.value) == CanonicalStringify(t)
  {
    CanonicalDenotes(t);
    CanonicalIffSame(t, Parse(CanonicalStringify(t)).value);
  }

  /* ---- the order of keys in the string ---- */

  predicate IndexAscends(keys: seq<Str>) {
    forall i, j :: 0 <= i < j < |keys| ==> IndexValue(keys[i]) <= IndexValue(keys[j])
  }

  lemma {:induction false} IndexInsert(key: Str, keys: seq<Str>)
    requires IndexAscends(keys)
    ensures IndexAscends(Insert(true, key, keys))
  {
    if keys != [] && !Precedes(true, key, keys[0]) {
      IndexInsert(key, keys[1..]);
      var r := Insert(true, key, keys[1..]);
      forall j | 0 <= j < |r| ensures IndexValue(keys[0]) <= IndexValue(r[j]) {
        assert r[j] in r;
        if r[j] != key {
          var i :| 1 <= i < |keys| && keys[i] == r[j];
        }
      }
    }
  }

  lemma {:induction false} IndexSort(keys: seq<Str>)
    ensures IndexAscends(Sort(true, keys))
  {
    if keys != [] {
      IndexSort(keys[1..]);
      IndexInsert(keys[0], Sort(true, keys[1..]));
    }
  }

  lemma {:induction false} SelectAscends(keys: seq<Str>)
    requires Ascends(keys)
    ensures Ascends(Select(false, keys))
  {
    if keys != [] {
      SelectAscends(keys[1..]);
      var r := Select(false, keys[1..]);
      forall j | 0 <= j < |r| ensures Below(keys[0], r[j]) {
        assert r[j] in r && r[j] in keys[1..];
        var i :| 0 <= i < |keys[1..]| && keys[1..][i] == r[j];
        assert keys[i + 1] == r[j];
      }
    }
  }

  predicate IndicesFirst(keys: seq<Str>, n: nat) {
    && n <= |keys| && (forall i :: 0 <= i < |keys| ==> (IsIndex(keys[i]) <==> i < n))
    && IndexAscends(keys[..n]) && Ascends(keys[n..])
  }

  lemma EnumeratedOrder(keys: seq<Str>)
    requires Ascends(keys)
    ensures IndicesFirst(Enumerated(keys), |Select(true, keys)|)
  {
    var indices, others := Sort(true, Select(true, keys)), Select(false, keys);
    SelectAscends(keys);
    IndexSort(Select(true, keys));
    var e := Enumerated(keys);
    assert e[..|indices|] == indices && e[|indices|..] == others;
    assert forall i :: 0 <= i < |indices| ==> indices[i] in Select(true, keys);
    assert forall i :: 0 <= i < |others| ==> others[i] in others;
  }

  /** In every object at every depth, integer-index keys come first in numeric order, and the other
      keys follow in the order of their code units. */
  ghost predicate KeysOrdered(t: Json) {
    match t
    case Arr(items) => forall i :: 0 <= i < |items| ==> KeysOrdered(items[i])
    case Obj(fields) =>
      && (exists n :: IndicesFirst(KeysOf(fields), n))
      && (forall i :: 0 <= i < |fields| ==> KeysOrdered(fields[i].value))
    case _ => true
  }

  lemma RootOrdered(t: Json)
    requires WellFormed(t) && t.Obj?
    ensures WellFormed(Canonicalize(t)) && Arrange(Enumeration, Canonicalize(t)).Obj?
    ensures exists n :: IndicesFirst(KeysOf(Arrange(Enumeration, Canonicalize(t)).fields), n)
  {
    ArrangeSame(Sorted, t);
    ArrangedKeys(Sorted, t);
    ArrangedKeys(Enumeration, Canonicalize(t));
    InOrderPermutes(Enumeration, KeysOf(t.fields));
    SortAscends(Enumerated(KeysOf(t.fields)));
    EnumeratedOrder(InOrder(Sorted, KeysOf(t.fields)));
  }

  /** A field of an arranged object holds the arrangement of a field of the object. */
  lemma ValueArranged(order: Order, t: Json, i: nat) returns (j: nat)
    requires WellFormed(t) && t.Obj? && Arrange(order, t).Obj? && i < |Arrange(order, t).fields|
    ensures j < |t.fields| && Arrange(order, t).fields[i].value == Arrange(order, t.fields[j].value)
  {
    InOrderPermutes(order, KeysOf(t.fields));
    j := IndexOf(t.fields, InOrder(order, KeysOf(t.fields))[i]);
  }

  lemma {:induction false} ArrangedOrdered(t: Json)
    requires WellFormed(t)
    ensures WellFormed(Canonicalize(t)) && KeysOrdered(Arrange(Enumeration, Canonicalize(t)))
  {
    ArrangeSame(Sorted, t);
    var c := Canonicalize(t);
    var u := Arrange(Enumeration, c);
    if t.Arr? {
      forall i | 0 <= i < |t.items| ensures KeysOrdered(u.items[i]) {
        ArrangedOrdered(t.items[i]);
      }
    } else if t.Obj? {
      RootOrdered(t);
      forall i | 0 <= i < |u.fields| ensures KeysOrdered(u.fields[i].value) {
        var j := ValueArranged(Enumeration, c, i);
        var m := ValueArranged(Sorted, t, j);
        ArrangedOrdered(t.fields[m].value);
      }
    }
  }

  /** The canonical string, read back, has its keys in that order in every object at every depth. */
  lemma CanonicalKeyOrder(t: Json)
    requires WellFormed(t)
    ensures var r := Parse(CanonicalStringify(t)); r.Some? && KeysOrdered(r.value)
  {
    ParseStringify(t);
    var parsed := Arrange(Enumeration, t);
    ArrangedOrdered(parsed);
    ParseStringify(Canonicalize(parsed));
  }

  /* ---- the loop that rebuilds a record ---- */

  /** canonicalizePlain: an array maps its items; a record is filled over the sorted keys. */
  method CanonicalizePlain(t: Json) returns (r: Json)
    requires WellFormed(t)
    ensures r == Canonicalize(t)
    decreases t
  {
    if t.Arr? {
      var items: seq<Json> := [];
      for i := 0 to |t.items|
        invariant |items| == i && forall j :: 0 <= j < i ==> items[j] == Arrange(Sorted, t.items[j])
      {
        var item := CanonicalizePlain(t.items[i]);
        items := items + [item];
      }
      return Arr(items);
    }
    if !t.Obj? { return t; }
    var record := FillRecord(t.fields);
    r := Obj(record);
  }

  method FillRecord(fields: seq<Field>) returns (record: seq<Field>)
    requires WellFormed(Obj(fields))
    ensures Obj(record) == Canonicalize(Obj(fields))
    decreases fields
  {
    var keys := InOrder(Sorted, KeysOf(fields));
    InOrderPermutes(Sorted, KeysOf(fields));
    ghost var whole := Canonicalize(Obj(fields)).fields;
    record := [];
    for i := 0 to |keys|
      invariant |whole| == |keys| && record == whole[..i]
    {
      var value := CanonicalizePlain(fields[IndexOf(fields, keys[i])].value);
      Fills(fields, keys, i);
      record := Put(record, keys[i], value);
    }
    assert whole[..|keys|] == whole;
  }

  /** What the rebuilt record holds at each place. */
  lemma Entry(fields: seq<Field>, keys: seq<Str>, i: nat)
    requires WellFormed(Obj(fields)) && keys == InOrder(Sorted, KeysOf(fields)) && i < |keys|
    ensures Permutes(KeysOf(fields), keys) && |Canonicalize(Obj(fields)).fields| == |keys|
    ensures Canonicalize(Obj(fields)).fields[i] == Field(keys[i], Canonicalize(fields[IndexOf(fields, keys[i])].value))
    ensures forall j :: 0 <= j < |keys| ==> Canonicalize(Obj(fields)).fields[j].key == keys[j]
  {
    InOrderPermutes(Sorted, KeysOf(fields));
  }

  /** Setting the next key of the record appends it. */
  lemma Fills(fields: seq<Field>, keys: seq<Str>, i: nat)
    requires WellFormed(Obj(fields)) && keys == InOrder(Sorted, KeysOf(fields)) && i < |keys|
    ensures Permutes(KeysOf(fields), keys)
    ensures var whole := Canonicalize(Obj(fields)).fields;
      |whole| == |keys| && Put(whole[..i], keys[i], Canonicalize(fields[IndexOf(fields, keys[i])].value)) == whole[..i + 1]
  {
    Entry(fields, keys, i);
    var whole := Canonicalize(Obj(fields)).fields;
    PutNext(whole, keys, i);
  }

  lemma PutNext(whole: seq<Field>, keys: seq<Str>, i: nat)
    requires Distinct(keys) && |whole| == |keys| && i < |keys| && (forall j :: 0 <= j < |keys| ==> whole[j].key == keys[j])
    ensures Put(whole[..i], keys[i], whole[i].value) == whole[..i + 1]
  {
    assert forall j :: 0 <= j < i ==> KeysOf(whole[..i])[j] == keys[j];
    assert whole[..i + 1] == whole[..i] + [whole[i]];
  }
}
