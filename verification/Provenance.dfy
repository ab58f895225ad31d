/** Replay fingerprints over canonical JSON, and what they say about a replayed row: which call
    recorded it. The hash, and the spelling of a label as JSON text, are any injective functions. */
module Provenance {
  import opened Options
  import opened RunLedger
  import Replay
  import opened Json
  import CanonicalJson
  import opened JsonSpelling

  /** The spelling of each kind in the fingerprint. */
  function KindText(kind: Kind): Str {
    match kind
    case Step => [115, 116, 101, 112]
    case Wait => [119, 97, 105, 116]
    case TriggerAndWait => [116, 114, 105, 103, 103, 101, 114, 45, 97, 110, 100, 45, 119, 97, 105, 116]
    case BatchTrigger => [98, 97, 116, 99, 104, 45, 116, 114, 105, 103, 103, 101, 114]
    case Now => [110, 111, 119]
    case Random => [114, 97, 110, 100, 111, 109]
    case Uuid => [117, 117, 105, 100]
  }

  lemma KindsDiffer(a: Kind, b: Kind)
    ensures KindText(a) == KindText(b) <==> a == b
  {
    if a != b && |KindText(a)| == |KindText(b)| {
      assert KindText(a)[0] != KindText(b)[0];
    }
  }

  /** The two functions the model leaves abstract. */
  datatype Scheme = Scheme(spell: string -> Str, hash: Str -> Str)

  ghost predicate Injective(s: Scheme) {
    && (forall a, b :: s.hash(a) == s.hash(b) ==> a == b)
    && (forall a, b :: s.spell(a) == s.spell(b) ==> a == b)
  }

  function Nullable(s: Scheme, name: Option<string>): Json {
    if name.Some? then Text(s.spell(name.value)) else Null
  }

  const V: Str := [118]
  const KIND: Str := [107, 105, 110, 100]
  const LABEL: Str := [108, 97, 98, 101, 108]
  const INPUT: Str := [105, 110, 112, 117, 116]
  const CODE: Str := [99, 111, 100, 101]
  const ONE: Str := [49]

  function Record(s: Scheme, kind: Kind, name: Option<string>, input: Json, code: Option<string>): Json {
    Obj([Field(V, Num(ONE)), Field(KIND, Text(KindText(kind))), Field(LABEL, Nullable(s, name)),
         Field(INPUT, input), Field(CODE, Nullable(s, code))])
  }

  lemma RecordFormed(s: Scheme, kind: Kind, name: Option<string>, input: Json, code: Option<string>)
    requires WellFormed(input)
    ensures WellFormed(Record(s, kind, name, input, code))
  {
    assert Digits(ONE) == 1 && FractionPart(ONE[1..]) && NumberToken(ONE);
  }

  function StepFingerprint(s: Scheme, kind: Kind, name: Option<string>, input: Json, code: Option<string>): Str
    requires WellFormed(input)
  {
    RecordFormed(s, kind, name, input, code);
    s.hash(CanonicalJson.CanonicalStringify(Record(s, kind, name, input, code)))
  }

  /** What is hashed, in literal characters: the canonical text of an object of the format version 1, the
      kind's name, the label, the input and the code version, null standing for an absent one. */
  lemma HashedRecord(s: Scheme, kind: Kind, name: Option<string>, input: Json, code: Option<string>)
    requires WellFormed(input)
    ensures var spelled := match kind
        case Step => Codes("step")
        case Wait => Codes("wait")
        case TriggerAndWait => Codes("trigger-and-wait")
        case BatchTrigger => Codes("batch-trigger")
        case Now => Codes("now")
        case Random => Codes("random")
        case Uuid => Codes("uuid");
      var record := Obj([Field(Codes("v"), Num(Codes("1"))), Field(Codes("kind"), Text(spelled)),
                         Field(Codes("label"), if name.Some? then Text(s.spell(name.value)) else Null), Field(Codes("input"), input),
                         Field(Codes("code"), if code.Some? then Text(s.spell(code.value)) else Null)]);
      WellFormed(record) && StepFingerprint(s, kind, name, input, code) == s.hash(CanonicalJson.CanonicalStringify(record))
  {
    RecordFormed(s, kind, name, input, code);
    assert Codes("v") == V && Codes("kind") == KIND && Codes("label") == LABEL && Codes("input") == INPUT && Codes("code") == CODE;
    assert Codes("1") == ONE;
    KindSpelled(kind);
  }

  lemma KindSpelled(kind: Kind)
    ensures KindText(kind) == match kind
      case Step => Codes("step")
      case Wait => Codes("wait")
      case TriggerAndWait => Codes("trigger-and-wait")
      case BatchTrigger => Codes("batch-trigger")
      case Now => Codes("now")
      case Random => Codes("random")
      case Uuid => Codes("uuid")
  {
  }

  /** Two calls have the same fingerprint exactly when kind, label and code version agree and their
      inputs are the same JSON up to key order. */
  lemma FingerprintIff(s: Scheme, kind: Kind, name: Option<string>, input: Json, code: Option<string>,
                       kind': Kind, name': Option<string>, input': Json, code': Option<string>)
    requires Injective(s) && WellFormed(input) && WellFormed(input')
    ensures StepFingerprint(s, kind, name, input, code) == StepFingerprint(s, kind', name', input', code')
            <==> kind == kind' && name == name' && code == code' && Same(input, input')
  {
    var r, r' := Record(s, kind, name, input, code), Record(s, kind', name', input', code');
    RecordFormed(s, kind, name, input, code);
    RecordFormed(s, kind', name', input', code');
    CanonicalJson.CanonicalIffSame(r, r');
    RecordsSame(s, kind, name, input, code, kind', name', input', code');
  }

  lemma NullablesDiffer(s: Scheme, a: Option<string>, b: Option<string>)
    requires Injective(s)
    ensures Same(Nullable(s, a), Nullable(s, b)) <==> a == b
  {
  }

  lemma RecordKeys(s: Scheme, kind: Kind, name: Option<string>, input: Json, code: Option<string>)
    ensures KeysOf(Record(s, kind, name, input, code).fields) == [V, KIND, LABEL, INPUT, CODE]
    ensures Distinct([V, KIND, LABEL, INPUT, CODE])
  {
    assert V[0] == 118 && KIND[0] == 107 && LABEL[0] == 108 && INPUT[0] == 105 && CODE[0] == 99;
  }

  lemma RecordsSame(s: Scheme, kind: Kind, name: Option<string>, input: Json, code: Option<string>,
                    kind': Kind, name': Option<string>, input': Json, code': Option<string>)
    requires Injective(s)
    ensures Same(Record(s, kind, name, input, code), Record(s, kind', name', input', code'))
            <==> kind == kind' && name == name' && code == code' && Same(input, input')
  {
    var f, g := Record(s, kind, name, input, code).fields, Record(s, kind', name', input', code').fields;
    RecordKeys(s, kind, name, input, code);
    RecordKeys(s, kind', name', input', code');
    AlignedSame(f, g);
    AllFive(f, g);
    ValuesSame(s, kind, name, code, kind', name', code');
  }

  lemma ValuesSame(s: Scheme, kind: Kind, name: Option<string>, code: Option<string>,
                   kind': Kind, name': Option<string>, code': Option<string>)
    requires Injective(s)
    ensures Same(Num(ONE), Num(ONE))
    ensures Same(Text(KindText(kind)), Text(KindText(kind'))) <==> kind == kind'
    ensures Same(Nullable(s, name), Nullable(s, name')) <==> name == name'
    ensures Same(Nullable(s, code), Nullable(s, code')) <==> code == code'
  {
    KindsDiffer(kind, kind');
    NullablesDiffer(s, name, name');
    NullablesDiffer(s, code, code');
  }

  lemma AllFive(f: seq<Field>, g: seq<Field>)
    requires |f| == |g| == 5
    ensures (forall i :: 0 <= i < 5 ==> Same(f[i].value, g[i].value))
            <==> Same(f[0].value, g[0].value) && Same(f[1].value, g[1].value) && Same(f[2].value, g[2].value)
                 && Same(f[3].value, g[3].value) && Same(f[4].value, g[4].value)
  {
  }

  /** Objects that list the same keys are the same when their values are, one by one. */
  lemma AlignedSame(f: seq<Field>, g: seq<Field>)
    requires Distinct(KeysOf(f)) && KeysOf(f) == KeysOf(g)
    ensures Same(Obj(f), Obj(g)) <==> forall i :: 0 <= i < |f| ==> Same(f[i].value, g[i].value)
  {
    assert |f| == |KeysOf(f)| == |KeysOf(g)| == |g|;
    forall i | 0 <= i < |f| ensures f[i].key == g[i].key && f[i].key in KeysOf(g) {
      assert KeysOf(f)[i] == f[i].key && KeysOf(g)[i] == g[i].key;
    }
    forall i, j | 0 <= i < |f| && 0 <= j < |g| && f[i].key == g[j].key ensures i == j {
      assert KeysOf(f)[i] == KeysOf(f)[j];
    }
  }

  /* ---- what a replayed row proves ---- */

  /** A durable call, as far as its row records it. */
  datatype Recorded = Recorded(kind: Kind, name: Option<string>, input: Json, code: Option<string>)

  function FingerprintOf(s: Scheme, c: Recorded): Str
    requires WellFormed(c.input)
  {
    StepFingerprint(s, c.kind, c.name, c.input, c.code)
  }

  /** The replay check of the executor at a call site: `name` is the label it presents, `c.name`
      the one its row would store. */
  function CheckAt(s: Scheme, snapshot: map<nat, Row<Str>>, pos: nat, c: Recorded, name: Option<string>, strict: bool)
    : Replay.Lookup<Str>
    requires WellFormed(c.input)
  {
    Replay.Cached(snapshot, pos, c.kind, name, FingerprintOf(s, c),
      recorded => StepFingerprint(s, c.kind, Some(recorded), c.input, c.code), strict)
  }

  /** The check on a completed row, read off: its kind, and its fingerprint if it has one, which in
      lenient mode may be the one under the label it stores. */
  lemma CheckPasses(s: Scheme, snapshot: map<nat, Row<Str>>, pos: nat, c: Recorded, name: Option<string>, strict: bool)
    requires WellFormed(c.input) && pos in snapshot && snapshot[pos].completed
    ensures var row := snapshot[pos]; var renamed := name.Some? && row.name.Some? && name != row.name;
      CheckAt(s, snapshot, pos, c, name, strict) == Replay.Hit(row)
      <==> row.kind == c.kind
           && (row.fingerprint.Some? ==>
                 if renamed then !strict && row.fingerprint.value == StepFingerprint(s, c.kind, row.name, c.input, c.code)
                 else row.fingerprint.value == FingerprintOf(s, c))
  {
  }

  predicate RecordedBy(s: Scheme, row: Row<Str>, c: Recorded) {
    WellFormed(c.input) && row.fingerprint == Some(FingerprintOf(s, c))
  }

  /** A row that is replayed and carries a fingerprint was recorded by a call of the same kind and
      code version and of JSON-equal input; in strict mode also under the same label, where both
      have one. A row of another kind is never replayed, fingerprint or not. */
  lemma ReplayedRowIsOurs(s: Scheme, snapshot: map<nat, Row<Str>>, pos: nat, c: Recorded, name: Option<string>,
                          strict: bool, row: Row<Str>, writer: Recorded)
    requires Injective(s) && WellFormed(c.input) && CheckAt(s, snapshot, pos, c, name, strict) == Replay.Hit(row)
    ensures row.kind == c.kind && row.completed
    ensures strict && row.fingerprint.Some? && name.Some? && row.name.Some? ==> row.name == name
    ensures RecordedBy(s, row, writer) ==> writer.kind == c.kind && writer.code == c.code && Same(writer.input, c.input)
  {
    CheckPasses(s, snapshot, pos, c, name, strict);
    if RecordedBy(s, row, writer) {
      FingerprintIff(s, writer.kind, writer.name, writer.input, writer.code, c.kind, c.name, c.input, c.code);
      if row.name.Some? {
        FingerprintIff(s, writer.kind, writer.name, writer.input, writer.code, c.kind, row.name, c.input, c.code);
      }
    }
  }

  /** Against a completed row that stores the label and fingerprint of the call that wrote it, the
      check passes exactly when nothing but a label changed, and that only in lenient mode. */
  lemma ReplayedExactly(s: Scheme, snapshot: map<nat, Row<Str>>, pos: nat, c: Recorded, name: Option<string>,
                        strict: bool, writer: Recorded)
    requires Injective(s) && WellFormed(c.input) && pos in snapshot && snapshot[pos].completed
    requires RecordedBy(s, snapshot[pos], writer) && snapshot[pos].kind == writer.kind && snapshot[pos].name == writer.name
    ensures CheckAt(s, snapshot, pos, c, name, strict) == Replay.Hit(snapshot[pos])
            <==> && writer.kind == c.kind && writer.code == c.code && Same(writer.input, c.input)
                 && (if name.Some? && writer.name.Some? && name != writer.name then !strict else writer.name == c.name)
  {
    CheckPasses(s, snapshot, pos, c, name, strict);
    FingerprintIff(s, writer.kind, writer.name, writer.input, writer.code, c.kind, c.name, c.input, c.code);
    FingerprintIff(s, writer.kind, writer.name, writer.input, writer.code, c.kind, writer.name, c.input, c.code);
  }
}
