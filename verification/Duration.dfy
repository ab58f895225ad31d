/** Durations such as "1h30m": a scanner in place of the regular expression, over ASCII and with
    exact decimals, and the grammar it accepts. */
module Duration {
  import opened Options
  import opened Permutations

  datatype Unit = Ms | Seconds | Minutes | Hours | Days | Weeks
  datatype Token = Token(amount: real, unit: Unit)
  datatype Scanned = Scanned(tokens: seq<Token>, leftover: string)
  datatype Result<T> = Ok(value: T) | Invalid

  function Millis(u: Unit): int {
    match u
    case Ms => 1
    case Seconds => 1000
    case Minutes => 60000
    case Hours => 3600000
    case Days => 86400000
    case Weeks => 604800000
  }

  predicate Space(c: char) {
    c == ' ' || '\t' <= c <= '\r'
  }

  predicate Digit(c: char) {
    '0' <= c <= '9'
  }

  function Lower(s: string): (r: string)
    ensures |r| == |s|
  {
    if s == [] then []
    else [if 'A' <= s[0] <= 'Z' then s[0] - 'A' + 'a' else s[0]] + Lower(s[1..])
  }

  function TrimStart(s: string): string {
    if s != [] && Space(s[0]) then TrimStart(s[1..]) else s
  }

  function TrimEnd(s: string): string {
    if s != [] && Space(s[|s| - 1]) then TrimEnd(s[..|s| - 1]) else s
  }

  /* ---- the scanner ---- */

  function Digits(s: string): (n: nat)
    ensures n <= |s| && (forall i :: 0 <= i < n ==> Digit(s[i])) && (n < |s| ==> !Digit(s[n]))
  {
    if s == [] || !Digit(s[0]) then 0 else 1 + Digits(s[1..])
  }

  function Spaces(s: string): (n: nat)
    ensures n <= |s| && (forall i :: 0 <= i < n ==> Space(s[i])) && (n < |s| ==> !Space(s[n]))
  {
    if s == [] || !Space(s[0]) then 0 else 1 + Spaces(s[1..])
  }

  function DigitValue(c: char): nat
    requires Digit(c)
  {
    c as int - '0' as int
  }

  function Whole(s: string): nat
    requires forall i :: 0 <= i < |s| ==> Digit(s[i])
  {
    if s == [] then 0 else 10 * Whole(s[..|s| - 1]) + DigitValue(s[|s| - 1])
  }

  /** The digits after the point. */
  function Decimals(s: string): real
    requires forall i :: 0 <= i < |s| ==> Digit(s[i])
  {
    if s == [] then 0.0 else (DigitValue(s[0]) as real + Decimals(s[1..])) / 10.0
  }

  function UnitText(u: Unit): string {
    match u
    case Ms => "ms"
    case Seconds => "s"
    case Minutes => "m"
    case Hours => "h"
    case Days => "d"
    case Weeks => "w"
  }

  /** The unit at the front; "ms" is tried before "m". */
  function UnitAt(s: string): Option<Unit> {
    if |s| >= 2 && s[0] == 'm' && s[1] == 's' then Some(Ms)
    else if s == [] then None
    else if s[0] == 's' then Some(Seconds)
    else if s[0] == 'm' then Some(Minutes)
    else if s[0] == 'h' then Some(Hours)
    else if s[0] == 'd' then Some(Days)
    else if s[0] == 'w' then Some(Weeks)
    else None
  }

  /** How long the fraction at the front is: a point and at least one digit, or nothing. */
  function FractionLength(s: string): (n: nat)
    ensures n <= |s| && (n > 0 ==> n >= 2 && s[0] == '.' && forall i :: 1 <= i < n ==> Digit(s[i]))
  {
    if s != [] && s[0] == '.' && Digits(s[1..]) > 0 then 1 + Digits(s[1..]) else 0
  }

  /** Where the digits end, where the fraction ends, and where the spaces before the unit end. */
  function WholeEnd(s: string): (n: nat)
    ensures n <= |s|
  {
    Digits(s)
  }

  function FractionEnd(s: string): (n: nat)
    ensures WholeEnd(s) <= n <= |s|
  {
    WholeEnd(s) + FractionLength(s[WholeEnd(s)..])
  }

  function GapEnd(s: string): (n: nat)
    ensures FractionEnd(s) <= n <= |s|
  {
    FractionEnd(s) + Spaces(s[FractionEnd(s)..])
  }

  function Amount(s: string): real {
    var w, f := WholeEnd(s), FractionEnd(s);
    assert f > w ==> forall i :: w + 1 <= i < f ==> s[i] == s[w..][i - w];
    Whole(s[..w]) as real + if f == w then 0.0 else Decimals(s[w + 1..f])
  }

  /** A match of the pattern that starts here. No shorter number can match: what follows it would
      be a digit or the point, never a space or a unit. */
  function MatchAt(s: string): (r: Option<(Token, nat)>)
    ensures r.Some? ==> 0 < r.value.1 <= |s|
  {
    var unit := UnitAt(s[GapEnd(s)..]);
    if WholeEnd(s) == 0 || unit.None? then None
    else Some((Token(Amount(s), unit.value), GapEnd(s) + |UnitText(unit.value)|))
  }

  /** Leftmost matches, one after the other; what lies between them is left over. */
  function Scan(s: string): Scanned
    decreases |s|
  {
    if s == [] then Scanned([], [])
    else
      var m := MatchAt(s);
      if m.Some? then
        var rest := Scan(s[m.value.1..]);
        Scanned([m.value.0] + rest.tokens, rest.leftover)
      else
        var rest := Scan(s[1..]);
        Scanned(rest.tokens, [s[0]] + rest.leftover)
  }

  predicate AllSpace(s: string) {
    forall i :: 0 <= i < |s| ==> Space(s[i])
  }

  predicate DistinctUnits(tokens: seq<Token>) {
    forall i, j :: 0 <= i < j < |tokens| ==> tokens[i].unit != tokens[j].unit
  }

  function Total(tokens: seq<Token>): real {
    if tokens == [] then 0.0 else Total(tokens[..|tokens| - 1]) + Worth(tokens[|tokens| - 1])
  }

  function Worth(t: Token): real {
    t.amount * Millis(t.unit) as real
  }

  function ParseText(input: string): Result<int> {
    var scanned := Scan(Lower(TrimEnd(TrimStart(input))));
    if DistinctUnits(scanned.tokens) && scanned.tokens != [] && AllSpace(scanned.leftover)
    then Ok(Total(scanned.tokens).Floor) else Invalid
  }

  /* ---- the grammar ---- */

  /** One number and unit as written: spaces, digits, maybe a point and digits, spaces, the unit. */
  datatype Piece = Piece(lead: string, whole: string, decimals: string, gap: string, unit: Unit)

  predicate AllDigits(s: string) {
    forall i :: 0 <= i < |s| ==> Digit(s[i])
  }

  predicate Spelled(p: Piece) {
    AllSpace(p.lead) && AllSpace(p.gap) && p.whole != [] && AllDigits(p.whole) && AllDigits(p.decimals)
  }

  function Fraction(p: Piece): string {
    if p.decimals == [] then [] else "." + p.decimals
  }

  function Core(p: Piece): string {
    p.whole + Fraction(p) + p.gap + UnitText(p.unit)
  }

  function Render(ps: seq<Piece>, tail: string): string {
    if ps == [] then tail else ps[0].lead + (Core(ps[0]) + Render(ps[1..], tail))
  }

  function Meaning(p: Piece): Token
    requires Spelled(p)
  {
    Token(Whole(p.whole) as real + Decimals(p.decimals), p.unit)
  }

  predicate AllSpelled(ps: seq<Piece>) {
    forall i :: 0 <= i < |ps| ==> Spelled(ps[i])
  }

  function Meanings(ps: seq<Piece>): (r: seq<Token>)
    requires AllSpelled(ps)
    ensures |r| == |ps| && forall i :: 0 <= i < |ps| ==> r[i] == Meaning(ps[i])
  {
    if ps == [] then [] else [Meaning(ps[0])] + Meanings(ps[1..])
  }

  /** What may follow a token: nothing, a space or a digit. */
  predicate Breaks(s: string) {
    s == [] || Space(s[0]) || Digit(s[0])
  }

  lemma {:induction false} DigitsOf(a: string, b: string)
    requires AllDigits(a) && (b == [] || !Digit(b[0]))
    ensures Digits(a + b) == |a|
  {
    if a == [] {
      assert a + b == b;
    } else {
      assert (a + b)[0] == a[0] && (a + b)[1..] == a[1..] + b;
      DigitsOf(a[1..], b);
    }
  }

  lemma {:induction false} SpacesOf(a: string, b: string)
    requires AllSpace(a) && (b == [] || !Space(b[0]))
    ensures Spaces(a + b) == |a|
  {
    if a == [] {
      assert a + b == b;
    } else {
      assert (a + b)[0] == a[0] && (a + b)[1..] == a[1..] + b;
      SpacesOf(a[1..], b);
    }
  }

  lemma UnitReads(u: Unit, rest: string)
    requires Breaks(rest)
    ensures UnitAt(UnitText(u) + rest) == Some(u)
  {
    var s := UnitText(u) + rest;
    assert s[0] == UnitText(u)[0];
    if u.Minutes? && rest != [] { assert s[1] == rest[0]; }
  }

  lemma FractionReads(decimals: string, after: string)
    requires AllDigits(decimals) && after != [] && !Digit(after[0]) && after[0] != '.'
    ensures FractionLength((if decimals == [] then [] else "." + decimals) + after) == if decimals == [] then 0 else 1 + |decimals|
  {
    if decimals == [] {
      assert [] + after == after;
    } else {
      assert ("." + decimals + after)[1..] == decimals + after;
      DigitsOf(decimals, after);
    }
  }

  lemma CoreParts(p: Piece, rest: string) returns (tail: string, after: string, unit: string)
    requires Spelled(p)
    ensures unit == UnitText(p.unit) + rest && after == p.gap + unit && tail == Fraction(p) + after
    ensures Core(p) + rest == p.whole + tail
    ensures unit[0] == UnitText(p.unit)[0] && !Space(unit[0]) && !Digit(unit[0]) && unit[0] != '.'
    ensures after != [] && !Digit(after[0]) && after[0] != '.' && tail != [] && !Digit(tail[0])
  {
    unit := UnitText(p.unit) + rest;
    after := p.gap + unit;
    tail := Fraction(p) + after;
    assert unit[0] == UnitText(p.unit)[0];
    assert after[0] == if p.gap == [] then unit[0] else p.gap[0];
    assert tail[0] == if p.decimals == [] then after[0] else '.';
    assert Core(p) + rest == p.whole + tail;
  }

  lemma Drop(a: string, b: string)
    ensures (a + b)[|a|..] == b && (a + b)[..|a|] == a
  {
  }

  lemma WholeReads(p: Piece, rest: string)
    requires Spelled(p)
    ensures WholeEnd(Core(p) + rest) == |p.whole|
  {
    var tail, after, unit := CoreParts(p, rest);
    DigitsOf(p.whole, tail);
  }

  lemma FractionEndReads(p: Piece, rest: string)
    requires Spelled(p)
    ensures FractionEnd(Core(p) + rest) == |p.whole + Fraction(p)|
  {
    var tail, after, unit := CoreParts(p, rest);
    WholeReads(p, rest);
    Drop(p.whole, tail);
    FractionReads(p.decimals, after);
  }

  lemma CoreSplits(p: Piece, rest: string, unit: string)
    requires unit == UnitText(p.unit) + rest
    ensures var s, n := Core(p) + rest, |p.whole + Fraction(p)|;
      s[..n] == p.whole + Fraction(p) && s[n..] == p.gap + unit
  {
    assert Core(p) + rest == p.whole + Fraction(p) + (p.gap + unit);
    Drop(p.whole + Fraction(p), p.gap + unit);
  }

  lemma GapReads(p: Piece, rest: string)
    requires Spelled(p)
    ensures GapEnd(Core(p) + rest) == |p.whole + Fraction(p) + p.gap|
    ensures (Core(p) + rest)[|p.whole + Fraction(p) + p.gap|..] == UnitText(p.unit) + rest
    ensures (Core(p) + rest)[..|p.whole + Fraction(p)|] == p.whole + Fraction(p)
  {
    var s, n, unit := Core(p) + rest, |p.whole + Fraction(p)|, UnitText(p.unit) + rest;
    FractionEndReads(p, rest);
    CoreSplits(p, rest, unit);
    GapThenUnit(p, rest);
    assert s[n + |p.gap|..] == s[n..][|p.gap|..];
  }

  lemma GapThenUnit(p: Piece, rest: string)
    requires Spelled(p)
    ensures Spaces(p.gap + (UnitText(p.unit) + rest)) == |p.gap|
    ensures (p.gap + (UnitText(p.unit) + rest))[|p.gap|..] == UnitText(p.unit) + rest
  {
    var unit := UnitText(p.unit) + rest;
    assert unit[0] == UnitText(p.unit)[0] && !Space(unit[0]);
    SpacesOf(p.gap, unit);
    Drop(p.gap, unit);
  }

  /** A token is read off the front whole. */
  lemma CoreReads(p: Piece, rest: string)
    requires Spelled(p) && Breaks(rest)
    ensures MatchAt(Core(p) + rest) == Some((Meaning(p), |Core(p)|))
  {
    WholeReads(p, rest);
    FractionEndReads(p, rest);
    GapReads(p, rest);
    UnitReads(p.unit, rest);
    AmountReads(p, Core(p) + rest);
  }

  lemma AmountReads(p: Piece, s: string)
    requires Spelled(p) && WholeEnd(s) == |p.whole| && FractionEnd(s) == |p.whole + Fraction(p)|
    requires s[..|p.whole + Fraction(p)|] == p.whole + Fraction(p)
    ensures Amount(s) == Meaning(p).amount
  {
    var w, f := |p.whole|, |p.whole + Fraction(p)|;
    assert s[..w] == s[..f][..w] == p.whole;
    if p.decimals != [] { assert s[w + 1..f] == s[..f][w + 1..] == p.decimals; }
  }

  /* ---- what is written is accepted ---- */

  lemma ConsAssoc(c: char, a: string, b: string)
    ensures [c] + (a + b) == [c] + a + b
  {
  }

  lemma {:induction false} LeadScans(lead: string, rest: string)
    requires AllSpace(lead)
    ensures Scan(lead + rest) == Scanned(Scan(rest).tokens, lead + Scan(rest).leftover)
  {
    if lead == [] {
      assert lead + rest == rest;
    } else {
      LeadScans(lead[1..], rest);
      ConsAssoc(lead[0], lead[1..], rest);
      ConsAssoc(lead[0], lead[1..], Scan(rest).leftover);
      assert [lead[0]] + lead[1..] == lead;
    }
  }

  lemma RenderBreaks(ps: seq<Piece>, tail: string)
    requires AllSpelled(ps) && AllSpace(tail)
    ensures Breaks(Render(ps, tail))
  {
    if ps != [] {
      var s := Render(ps, tail);
      assert Core(ps[0])[0] == ps[0].whole[0];
      assert s[0] == if ps[0].lead == [] then Core(ps[0])[0] else ps[0].lead[0];
    }
  }

  /** The scanner reads every sentence of the grammar back, and leaves only spaces. */
  lemma {:induction false} SentenceScans(ps: seq<Piece>, tail: string)
    requires AllSpelled(ps) && AllSpace(tail)
    ensures Scan(Render(ps, tail)).tokens == Meanings(ps) && AllSpace(Scan(Render(ps, tail)).leftover)
    decreases ps
  {
    if ps == [] {
      assert tail + [] == tail;
      LeadScans(tail, []);
    } else {
      var rest := Render(ps[1..], tail);
      RenderBreaks(ps[1..], tail);
      SentenceScans(ps[1..], tail);
      CoreReads(ps[0], rest);
      var s := Core(ps[0]) + rest;
      assert s[|Core(ps[0])|..] == rest;
      LeadScans(ps[0].lead, s);
    }
  }

  /* ---- what is accepted is written ---- */

  lemma GapSpells(s: string)
    ensures AllSpace(s[FractionEnd(s)..GapEnd(s)])
  {
    var f, g := FractionEnd(s), GapEnd(s);
    assert forall i :: 0 <= i < g - f ==> s[f..g][i] == s[f..][i];
  }

  /** The digits of the fraction, or none. */
  function DecimalsOf(s: string): string {
    var w, f := WholeEnd(s), FractionEnd(s);
    if f == w then [] else s[w + 1..f]
  }

  lemma DecimalsSpell(s: string)
    ensures AllDigits(DecimalsOf(s)) && (FractionEnd(s) > WholeEnd(s) ==> DecimalsOf(s) != [])
    ensures s[WholeEnd(s)..FractionEnd(s)] == if DecimalsOf(s) == [] then [] else "." + DecimalsOf(s)
  {
    var w, f := WholeEnd(s), FractionEnd(s);
    if f > w {
      assert s[w..][0] == s[w] == '.' && s[w..f] == [s[w]] + s[w + 1..f];
      assert forall i :: 0 <= i < f - w - 1 ==> DecimalsOf(s)[i] == s[w..][i + 1];
    }
  }

  /** The five parts of a match. */
  lemma MatchParts(s: string) returns (p: Piece)
    requires MatchAt(s).Some?
    ensures p == Piece([], s[..WholeEnd(s)], DecimalsOf(s), s[FractionEnd(s)..GapEnd(s)], MatchAt(s).value.0.unit)
    ensures Spelled(p) && Meaning(p).amount == Amount(s)
  {
    GapSpells(s);
    DecimalsSpell(s);
    p := Piece([], s[..WholeEnd(s)], DecimalsOf(s), s[FractionEnd(s)..GapEnd(s)], MatchAt(s).value.0.unit);
  }

  lemma UnitSpells(s: string)
    requires UnitAt(s).Some?
    ensures |UnitText(UnitAt(s).value)| <= |s| && s[..|UnitText(UnitAt(s).value)|] == UnitText(UnitAt(s).value)
  {
  }

  lemma Pieces(s: string, a: nat, b: nat, c: nat, d: nat)
    requires a <= b <= c <= d <= |s|
    ensures s == s[..a] + s[a..b] + s[b..c] + s[c..d] + s[d..]
  {
  }

  /** A match spells a piece. */
  lemma MatchSpells(s: string) returns (p: Piece)
    requires MatchAt(s).Some?
    ensures Spelled(p) && p.lead == [] && Meaning(p) == MatchAt(s).value.0
    ensures s == Core(p) + s[MatchAt(s).value.1..]
  {
    p := MatchParts(s);
    var w, f, g, end := WholeEnd(s), FractionEnd(s), GapEnd(s), MatchAt(s).value.1;
    UnitSpells(s[g..]);
    assert s[g..end] == s[g..][..end - g];
    Pieces(s, w, f, g, end);
    DecimalsSpell(s);
  }

  lemma LeftoverSpace(s: string)
    requires s != [] && MatchAt(s).None? && AllSpace(Scan(s).leftover)
    ensures Space(s[0]) && AllSpace(Scan(s[1..]).leftover) && Scan(s).tokens == Scan(s[1..]).tokens
  {
    var rest := Scan(s[1..]).leftover;
    assert Scan(s).leftover == [s[0]] + rest;
    assert ([s[0]] + rest)[0] == s[0];
    assert forall i :: 0 <= i < |rest| ==> rest[i] == ([s[0]] + rest)[i + 1];
  }

  lemma MatchScan(s: string)
    requires s != [] && MatchAt(s).Some?
    ensures Scan(s) == Scanned([MatchAt(s).value.0] + Scan(s[MatchAt(s).value.1..]).tokens, Scan(s[MatchAt(s).value.1..]).leftover)
  {
  }

  lemma ConsPiece(p: Piece, qs: seq<Piece>, tail: string)
    requires Spelled(p) && p.lead == [] && AllSpelled(qs)
    ensures AllSpelled([p] + qs) && Meanings([p] + qs) == [Meaning(p)] + Meanings(qs)
    ensures Render([p] + qs, tail) == Core(p) + Render(qs, tail)
  {
    assert ([p] + qs)[1..] == qs;
    assert [] + (Core(p) + Render(qs, tail)) == Core(p) + Render(qs, tail);
  }

  lemma {:induction false} ScanSpells(s: string) returns (ps: seq<Piece>, tail: string)
    requires AllSpace(Scan(s).leftover)
    ensures AllSpelled(ps) && AllSpace(tail) && s == Render(ps, tail) && Meanings(ps) == Scan(s).tokens
    decreases |s|
  {
    if s == [] {
      ps, tail := [], [];
    } else if MatchAt(s).Some? {
      MatchScan(s);
      var p := MatchSpells(s);
      var qs, t := ScanSpells(s[MatchAt(s).value.1..]);
      ps, tail := [p] + qs, t;
      ConsPiece(p, qs, t);
    } else {
      LeftoverSpace(s);
      assert [s[0]] + s[1..] == s;
      var qs, t := ScanSpells(s[1..]);
      if qs == [] {
        ps, tail := [], [s[0]] + t;
      } else {
        Relead(s[0], qs, t);
        ps, tail := [qs[0].(lead := [s[0]] + qs[0].lead)] + qs[1..], t;
      }
    }
  }

  lemma Relead(c: char, qs: seq<Piece>, tail: string)
    requires qs != [] && AllSpelled(qs) && Space(c)
    ensures var ps := [qs[0].(lead := [c] + qs[0].lead)] + qs[1..];
      Render(ps, tail) == [c] + Render(qs, tail) && AllSpelled(ps) && Meanings(ps) == Meanings(qs)
  {
    var first := qs[0].(lead := [c] + qs[0].lead);
    var ps := [first] + qs[1..];
    assert ps[1..] == qs[1..];
    ConsAssoc(c, qs[0].lead, Core(qs[0]) + Render(qs[1..], tail));
    assert Core(first) == Core(qs[0]) && Meaning(first) == Meaning(qs[0]);
  }

  /* ---- trimming ---- */

  lemma {:induction false} TrimStartCuts(s: string) returns (lead: string)
    ensures AllSpace(lead) && s == lead + TrimStart(s)
  {
    if s != [] && Space(s[0]) {
      var rest := TrimStartCuts(s[1..]);
      lead := [s[0]] + rest;
      ConsAssoc(s[0], rest, TrimStart(s[1..]));
      assert s == [s[0]] + s[1..];
    } else {
      lead := [];
    }
  }

  lemma {:induction false} TrimEndCuts(s: string) returns (tail: string)
    ensures AllSpace(tail) && s == TrimEnd(s) + tail
  {
    if s != [] && Space(s[|s| - 1]) {
      var rest := TrimEndCuts(s[..|s| - 1]);
      tail := rest + [s[|s| - 1]];
      assert s == s[..|s| - 1] + [s[|s| - 1]];
    } else {
      tail := [];
    }
  }

  lemma {:induction false} LowerConcat(a: string, b: string)
    ensures Lower(a + b) == Lower(a) + Lower(b)
  {
    if a == [] {
      assert a + b == b;
    } else {
      assert (a + b)[0] == a[0] && (a + b)[1..] == a[1..] + b;
      LowerConcat(a[1..], b);
    }
  }

  lemma {:induction false} LowerSpace(s: string)
    requires AllSpace(s)
    ensures AllSpace(Lower(s))
  {
    if s != [] { LowerSpace(s[1..]); }
  }

  /** Trimming takes spaces off a sentence and nothing else. */
  lemma TrimmedParts(input: string) returns (lead: string, tail: string)
    ensures AllSpace(lead) && AllSpace(tail)
    ensures Lower(input) == lead + (Lower(TrimEnd(TrimStart(input))) + tail)
  {
    var l := TrimStartCuts(input);
    var t := TrimEndCuts(TrimStart(input));
    var core := TrimEnd(TrimStart(input));
    LowerConcat(l, core + t);
    LowerConcat(core, t);
    LowerSpace(l);
    LowerSpace(t);
    lead, tail := Lower(l), Lower(t);
  }

  /* ---- spaces at the end change nothing ---- */

  lemma {:induction false} DigitsPad(s: string, pad: string)
    requires AllSpace(pad)
    ensures Digits(s + pad) == Digits(s)
  {
    if s == [] {
      assert s + pad == pad;
    } else {
      assert (s + pad)[0] == s[0] && (s + pad)[1..] == s[1..] + pad;
      DigitsPad(s[1..], pad);
    }
  }

  lemma {:induction false} SpacesPad(s: string, pad: string)
    requires AllSpace(pad)
    ensures Spaces(s + pad) == if Spaces(s) < |s| then Spaces(s) else |s| + |pad|
  {
    if s == [] {
      assert s + pad == pad && pad + [] == pad;
      SpacesOf(pad, []);
    } else {
      assert (s + pad)[0] == s[0] && (s + pad)[1..] == s[1..] + pad;
      SpacesPad(s[1..], pad);
    }
  }

  lemma FractionPad(s: string, pad: string)
    requires AllSpace(pad)
    ensures FractionLength(s + pad) == FractionLength(s)
  {
    if s == [] {
      assert s + pad == pad;
    } else {
      assert (s + pad)[0] == s[0] && (s + pad)[1..] == s[1..] + pad;
      DigitsPad(s[1..], pad);
    }
  }

  lemma UnitPad(s: string, pad: string)
    requires AllSpace(pad)
    ensures UnitAt(s + pad) == UnitAt(s)
  {
    assert forall i :: 0 <= i < |s| ==> (s + pad)[i] == s[i];
    assert forall i :: 0 <= i < |pad| ==> (s + pad)[|s| + i] == pad[i];
  }

  lemma DropPad(s: string, pad: string, n: nat)
    requires n <= |s|
    ensures (s + pad)[n..] == s[n..] + pad && (s + pad)[..n] == s[..n]
  {
  }

  lemma EndsPad(s: string, pad: string)
    requires AllSpace(pad)
    ensures WholeEnd(s + pad) == WholeEnd(s) && FractionEnd(s + pad) == FractionEnd(s)
    ensures GapEnd(s + pad) == if GapEnd(s) < |s| then GapEnd(s) else |s + pad|
  {
    DigitsPad(s, pad);
    DropPad(s, pad, WholeEnd(s));
    FractionPad(s[WholeEnd(s)..], pad);
    DropPad(s, pad, FractionEnd(s));
    SpacesPad(s[FractionEnd(s)..], pad);
  }

  lemma NoUnitNoMatch(s: string)
    requires GapEnd(s) == |s|
    ensures MatchAt(s) == None
  {
    assert s[|s|..] == [];
  }

  lemma MatchPad(s: string, pad: string)
    requires AllSpace(pad)
    ensures MatchAt(s + pad) == MatchAt(s)
  {
    EndsPad(s, pad);
    if GapEnd(s) < |s| {
      DropPad(s, pad, GapEnd(s));
      UnitPad(s[GapEnd(s)..], pad);
      AmountPad(s, pad);
    } else {
      NoUnitNoMatch(s);
      NoUnitNoMatch(s + pad);
    }
  }

  lemma SlicePad(s: string, pad: string, a: nat, b: nat)
    requires a < b <= |s| || a == b <= |s|
    ensures a < b ==> (s + pad)[a + 1..b] == s[a + 1..b]
  {
  }

  lemma AmountPad(s: string, pad: string)
    requires AllSpace(pad)
    ensures Amount(s + pad) == Amount(s)
  {
    EndsPad(s, pad);
    DropPad(s, pad, WholeEnd(s));
    SlicePad(s, pad, WholeEnd(s), FractionEnd(s));
  }

  lemma {:induction false} ScanPad(s: string, pad: string)
    requires AllSpace(pad)
    ensures Scan(s + pad) == Scanned(Scan(s).tokens, Scan(s).leftover + pad)
    decreases |s|
  {
    if s == [] {
      assert s + pad == pad && pad + [] == pad && [] + pad == pad;
      LeadScans(pad, []);
    } else {
      MatchPad(s, pad);
      if MatchAt(s).Some? {
        var n := MatchAt(s).value.1;
        MatchScan(s);
        MatchScan(s + pad);
        DropPad(s, pad, n);
        ScanPad(s[n..], pad);
      } else {
        NoMatchScan(s);
        NoMatchScan(s + pad);
        DropPad(s, pad, 1);
        ScanPad(s[1..], pad);
        ConsAssoc(s[0], Scan(s[1..]).leftover, pad);
      }
    }
  }

  lemma NoMatchScan(s: string)
    requires s != [] && MatchAt(s).None?
    ensures Scan(s) == Scanned(Scan(s[1..]).tokens, [s[0]] + Scan(s[1..]).leftover)
  {
  }

  /** Trimming before the scan gives the tokens, and a leftover, of the untrimmed text. */
  lemma TrimScan(input: string)
    ensures var trimmed := Scan(Lower(TrimEnd(TrimStart(input))));
      && Scan(Lower(input)).tokens == trimmed.tokens
      && (AllSpace(Scan(Lower(input)).leftover) <==> AllSpace(trimmed.leftover))
  {
    var lead, tail := TrimmedParts(input);
    var core := Lower(TrimEnd(TrimStart(input)));
    LeadScans(lead, core + tail);
    ScanPad(core, tail);
    SpaceAround(lead, Scan(core).leftover, tail);
  }

  lemma SpaceAround(lead: string, s: string, tail: string)
    requires AllSpace(lead) && AllSpace(tail)
    ensures AllSpace(lead + (s + tail)) <==> AllSpace(s)
  {
    assert forall i :: 0 <= i < |s| ==> (lead + (s + tail))[|lead| + i] == s[i];
  }

  /* ---- the promises ---- */

  /** A sentence of the grammar: one or more pieces with distinct units, then spaces. Letters may
      stand in either case. */
  predicate Sentence(input: string, ps: seq<Piece>, tail: string) {
    && ps != [] && AllSpelled(ps) && AllSpace(tail) && DistinctUnits(Meanings(ps))
    && Lower(input) == Render(ps, tail)
  }

  /** A sentence is accepted, with the floor of the exact sum of its pieces. */
  lemma SentenceValue(input: string, ps: seq<Piece>, tail: string)
    requires Sentence(input, ps, tail)
    ensures ParseText(input) == Ok(Total(Meanings(ps)).Floor)
  {
    TrimScan(input);
    SentenceScans(ps, tail);
  }

  /** Exactly the sentences are accepted. */
  lemma AcceptsExactlySentences(input: string)
    ensures ParseText(input).Ok? <==> exists ps, tail :: Sentence(input, ps, tail)
  {
    TrimScan(input);
    if ParseText(input).Ok? {
      var ps, tail := ScanSpells(Lower(input));
      assert Sentence(input, ps, tail);
    }
    if exists ps, tail :: Sentence(input, ps, tail) {
      var ps, tail :| Sentence(input, ps, tail);
      SentenceValue(input, ps, tail);
    }
  }

  function Pow10(k: nat): int {
    if k == 0 then 1 else 10 * Pow10(k - 1)
  }

  lemma {:induction false} WholeSplits(d: char, s: string)
    requires Digit(d) && AllDigits(s)
    ensures AllDigits([d] + s) && Whole([d] + s) == DigitValue(d) * Pow10(|s|) + Whole(s)
  {
    var n := [d] + s;
    if s == [] {
      assert n[..0] == [];
    } else {
      WholeSplits(d, s[..|s| - 1]);
      assert n[..|n| - 1] == [d] + s[..|s| - 1];
      assert Whole(n) == 10 * (DigitValue(d) * Pow10(|s| - 1) + Whole(s[..|s| - 1])) + DigitValue(s[|s| - 1]);
      assert DigitValue(d) * Pow10(|s|) == 10 * (DigitValue(d) * Pow10(|s| - 1));
    }
  }

  lemma FirstDigit(s: string)
    requires AllDigits(s) && s != []
    ensures Whole(s) == DigitValue(s[0]) * Pow10(|s| - 1) + Whole(s[1..])
    ensures Pow10(|s|) == 10 * Pow10(|s| - 1) && Decimals(s) == (DigitValue(s[0]) as real + Decimals(s[1..])) / 10.0
  {
    assert s == [s[0]] + s[1..];
    WholeSplits(s[0], s[1..]);
  }

  lemma Shift(d: int, rest: real, p: int, whole: int)
    requires rest * p as real == whole as real
    ensures (d as real + rest) / 10.0 * (10 * p) as real == (d * p + whole) as real
  {
    Spread(d as real, rest, p as real);
    assert (d * p) as real == d as real * p as real;
  }

  lemma Spread(d: real, rest: real, p: real)
    ensures (d + rest) / 10.0 * (10.0 * p) == d * p + rest * p
  {
    assert (d + rest) / 10.0 * (10.0 * p) == (d + rest) * p;
  }

  lemma Shifted(decimals: real, power: int, numeral: int, d: int, rest: real, p: int, whole: int)
    requires decimals == (d as real + rest) / 10.0 && power == 10 * p && numeral == d * p + whole
    requires Quotient(rest, p, whole)
    ensures Quotient(decimals, power, numeral)
  {
    Shift(d, rest, p, whole);
  }

  /** The decimals are the numeral divided by the power. */
  predicate Quotient(decimals: real, power: int, numeral: int) {
    decimals * power as real == numeral as real
  }

  /** k digits after the point are worth the numeral they spell divided by 10^k. */
  lemma {:induction false} DecimalsAreShifted(s: string)
    requires AllDigits(s)
    ensures Quotient(Decimals(s), Pow10(|s|), Whole(s))
    decreases |s|
  {
    if s == [] {
      assert Decimals(s) == 0.0 && Pow10(|s|) == 1 && Whole(s) == 0;
    } else {
      var tail := s[1..];
      assert AllDigits(tail) && |tail| == |s| - 1;
      DecimalsAreShifted(tail);
      FirstDigit(s);
      Shifted(Decimals(s), Pow10(|s|), Whole(s), DigitValue(s[0]), Decimals(tail), Pow10(|tail|), Whole(tail));
    }
  }

  lemma {:induction false} TotalConcat(a: seq<Token>, b: seq<Token>)
    ensures Total(a + b) == Total(a) + Total(b)
  {
    if b == [] {
      assert a + b == a;
    } else {
      assert (a + b)[..|a + b| - 1] == a + b[..|b| - 1];
      TotalConcat(a, b[..|b| - 1]);
    }
  }

  lemma TotalTakeOut(b: seq<Token>, i: nat)
    requires i < |b|
    ensures Total(b) == Worth(b[i]) + Total(Without(b, i))
  {
    var front, back := b[..i + 1], b[i + 1..];
    assert b == front + back && front[..i] == b[..i];
    TotalConcat(front, back);
    TotalConcat(b[..i], back);
    assert Total(front) == Total(front[..i]) + Worth(front[i]);
  }

  lemma {:induction false} TotalPermuted(a: seq<Token>, b: seq<Token>)
    requires multiset(a) == multiset(b)
    ensures Total(a) == Total(b)
    decreases |a|
  {
    SameLength(a, b);
    if a != [] {
      var i := Partner(a, 0, b);
      TotalPermuted(Without(a, 0), Without(b, i));
      TotalTakeOut(a, 0);
      TotalTakeOut(b, i);
    }
  }

  /** The order of the tokens does not matter. */
  lemma OrderIrrelevant(input: string, ps: seq<Piece>, tail: string, other: string, qs: seq<Piece>, end: string)
    requires Sentence(input, ps, tail) && Sentence(other, qs, end) && multiset(Meanings(ps)) == multiset(Meanings(qs))
    ensures ParseText(input) == ParseText(other)
  {
    SentenceValue(input, ps, tail);
    SentenceValue(other, qs, end);
    TotalPermuted(Meanings(ps), Meanings(qs));
  }

  lemma {:induction false} LowerFixed(s: string)
    requires forall i :: 0 <= i < |s| ==> !('A' <= s[i] <= 'Z')
    ensures Lower(s) == s
  {
    if s != [] { LowerFixed(s[1..]); }
  }

  const HOUR := Piece("", "1", "", "", Hours)
  const HALF := Piece("", "30", "", "", Minutes)

  lemma HourText()
    ensures Render([HOUR, HALF], "") == "1h30m"
  {
    assert Core(HOUR) == "1h" && Core(HALF) == "30m";
    assert [HALF][1..] == [] && Render([HALF], "") == "" + ("30m" + "") == "30m";
    assert [HOUR, HALF][1..] == [HALF];
    assert "" + ("1h" + "30m") == "1h30m";
  }

  lemma HourWorth()
    ensures AllSpelled([HOUR, HALF]) && Meanings([HOUR, HALF]) == [Token(1.0, Hours), Token(30.0, Minutes)]
    ensures Total([Token(1.0, Hours), Token(30.0, Minutes)]) == 5400000.0
  {
    Numerals();
    var tokens := [Token(1.0, Hours), Token(30.0, Minutes)];
    assert tokens[..1] == [tokens[0]] && tokens[..1][..0] == [];
    assert Total(tokens[..1]) == Worth(tokens[0]);
  }

  /** "1h30m" is ninety minutes. */
  lemma HourAndAHalf()
    ensures ParseText("1h30m") == Ok(5400000)
  {
    LowerFixed("1h30m");
    HourText();
    HourWorth();
    SentenceValue("1h30m", [HOUR, HALF], "");
  }

  lemma Numerals()
    ensures Whole("1") == 1 && Whole("30") == 30 && Decimals("") == 0.0
  {
    assert "1"[..0] == "" && "3"[..0] == "" && "30"[..1] == "3";
    assert Whole("3") == 3;
  }

  /** The six units, as they are written and in milliseconds. */
  lemma UnitsSpelledOut(t: Token)
    ensures match t.unit
      case Ms => UnitText(t.unit) == "ms" && Worth(t) == t.amount
      case Seconds => UnitText(t.unit) == "s" && Worth(t) == t.amount * 1000.0
      case Minutes => UnitText(t.unit) == "m" && Worth(t) == t.amount * 60.0 * 1000.0
      case Hours => UnitText(t.unit) == "h" && Worth(t) == t.amount * 60.0 * 60.0 * 1000.0
      case Days => UnitText(t.unit) == "d" && Worth(t) == t.amount * 24.0 * 60.0 * 60.0 * 1000.0
      case Weeks => UnitText(t.unit) == "w" && Worth(t) == t.amount * 7.0 * 24.0 * 60.0 * 60.0 * 1000.0
  {
  }

  /** What counts as a space and as a digit, and what becomes of a capital, character by character. */
  lemma CharactersSpelledOut(c: char)
    ensures Space(c) <==> c == ' ' || c == '\t' || c == '\n' || c == '\U{000B}' || c == '\U{000C}' || c == '\r'
    ensures Digit(c) <==> c in {'0', '1', '2', '3', '4', '5', '6', '7', '8', '9'}
    ensures Lower([c]) == [if 'A' <= c <= 'Z' then (c as int + 32) as char else c]
  {
    assert [c][1..] == [] && Lower([]) == [];
  }

  /** A numeral is worth what it says: its last digit, and ten times what comes before. */
  lemma NumeralSpelledOut(s: string, d: nat)
    requires AllDigits(s) && d < 10
    ensures AllDigits(s + ["0123456789"[d]]) && Whole(s + ["0123456789"[d]]) == 10 * Whole(s) + d && Whole("") == 0
  {
    var c := "0123456789"[d];
    assert c as int == '0' as int + d;
    assert (s + [c])[..|s|] == s;
  }

  /* ---- the program ---- */

  datatype Input = Number(ms: real) | NotFinite | Words(s: string)

  function Parse(input: Input): Result<int> {
    match input
    case NotFinite => Invalid
    case Number(ms) => if ms < 0.0 then Invalid else Ok(ms.Floor)
    case Words(s) => ParseText(s)
  }

  lemma {:induction false} ScanNonNegative(s: string)
    ensures forall i :: 0 <= i < |Scan(s).tokens| ==> Scan(s).tokens[i].amount >= 0.0
    decreases |s|
  {
    if s != [] {
      if MatchAt(s).Some? {
        MatchScan(s);
        DecimalsSpell(s);
        DecimalsNonNegative(DecimalsOf(s));
        ScanNonNegative(s[MatchAt(s).value.1..]);
      } else {
        NoMatchScan(s);
        ScanNonNegative(s[1..]);
      }
    }
  }

  lemma {:induction false} DecimalsNonNegative(s: string)
    requires AllDigits(s)
    ensures 0.0 <= Decimals(s) && (s != [] ==> Decimals(s) < 1.0) && Decimals(s) <= 1.0
  {
    if s != [] { DecimalsNonNegative(s[1..]); }
  }

  lemma {:induction false} TotalNonNegative(tokens: seq<Token>)
    requires forall i :: 0 <= i < |tokens| ==> tokens[i].amount >= 0.0
    ensures Total(tokens) >= 0.0
  {
    if tokens != [] {
      TotalNonNegative(tokens[..|tokens| - 1]);
      var t := tokens[|tokens| - 1];
      assert Millis(t.unit) >= 1;
      assert t.amount * Millis(t.unit) as real >= 0.0;
    }
  }

  /** No duration is negative. */
  lemma NeverNegative(input: Input)
    ensures Parse(input).Ok? ==> Parse(input).value >= 0
  {
    if input.Words? {
      ScanNonNegative(Lower(TrimEnd(TrimStart(input.s))));
      TotalNonNegative(Scan(Lower(TrimEnd(TrimStart(input.s)))).tokens);
    }
  }

  const DATE_MAX_MS: int := 8640000000000000

  /** `from` is a time value, or None for an invalid Date. */
  function ToDate(input: Input, from: Option<int>): Result<int> {
    match Parse(input)
    case Invalid => Invalid
    case Ok(ms) =>
      if from.None? then Invalid
      else if from.value + ms > DATE_MAX_MS || from.value + ms < -DATE_MAX_MS then Invalid
      else Ok(from.value + ms)
  }

  /** A number is its own floor in milliseconds, if it is finite and not negative. */
  lemma NumbersSpelledOut(ms: real)
    ensures Parse(Number(ms)) == (if ms < 0.0 then Invalid else Ok(ms.Floor)) && Parse(NotFinite) == Invalid
    ensures forall s :: Parse(Words(s)) == ParseText(s)
  {
  }

  /** From a Date in range, the result is a Date in range that is not before it, whenever the
      duration is one and the range is not left; and nothing else is refused. */
  lemma DatesStayInRange(input: Input, from: int)
    requires -8640000000000000 <= from <= 8640000000000000
    ensures ToDate(input, None) == Invalid
    ensures ToDate(input, Some(from)).Ok? <==> Parse(input).Ok? && from + Parse(input).value <= 8640000000000000
    ensures ToDate(input, Some(from)).Ok? ==>
      from <= ToDate(input, Some(from)).value <= 8640000000000000 && ToDate(input, Some(from)).value == from + Parse(input).value
  {
    NeverNegative(input);
  }

  /** The loop over the matches: a repeated unit ends it at once. */
  method SumMatches(tokens: seq<Token>) returns (sum: Option<real>)
    ensures sum == if DistinctUnits(tokens) then Some(Total(tokens)) else None
  {
    var total, matches, seen := 0.0, 0, {};
    while matches < |tokens|
      invariant 0 <= matches <= |tokens| && total == Total(tokens[..matches])
      invariant forall i, j :: 0 <= i < j < matches ==> tokens[i].unit != tokens[j].unit
      invariant forall i :: 0 <= i < matches ==> tokens[i].unit in seen
      invariant forall u :: u in seen ==> exists i :: 0 <= i < matches && tokens[i].unit == u
    {
      var t := tokens[matches];
      if t.unit in seen { return None; }
      assert tokens[..matches + 1][..matches] == tokens[..matches];
      assert Total(tokens[..matches + 1]) == total + Worth(t);
      seen := seen + {t.unit};
      total := total + t.amount * Millis(t.unit) as real;
      matches := matches + 1;
    }
    assert tokens[..matches] == tokens;
    sum := Some(total);
  }

  method ParseDuration(input: string) returns (r: Result<int>)
    ensures r == ParseText(input)
  {
    var scanned := Scan(Lower(TrimEnd(TrimStart(input))));
    var sum := SumMatches(scanned.tokens);
    if sum.None? || |scanned.tokens| == 0 || !AllSpace(scanned.leftover) { return Invalid; }
    r := Ok(sum.value.Floor);
  }
}
