/** Durations as readable text. */
module ServerInfo {
  import opened Prelude
  import opened Text

  datatype Unit = Day | Hour | Minute | Second

  const DAY_TEXT := "\U{5929}"
  const HOUR_TEXT := "\U{5C0F}\U{65F6}"
  const MINUTE_TEXT := "\U{5206}\U{949F}"
  const SECOND_TEXT := "\U{79D2}"

  function UnitText(u: Unit): string {
    match u
    case Day => DAY_TEXT
    case Hour => HOUR_TEXT
    case Minute => MINUTE_TEXT
    case Second => SECOND_TEXT
  }

  function SecondsIn(u: Unit): nat {
    match u
    case Day => 86400
    case Hour => 3600
    case Minute => 60
    case Second => 1
  }

  /** An amount of a unit, as in "3 minutes". */
  datatype Part = Part(amount: int, unit: Unit)

  function PartText(p: Part): string {
    Decimal(p.amount) + " " + UnitText(p.unit)
  }

  function PartTexts(parts: seq<Part>): seq<string> {
    seq(|parts|, i requires 0 <= i < |parts| => PartText(parts[i]))
  }

  function Seconds(parts: seq<Part>): int {
    if parts == [] then 0 else parts[0].amount * SecondsIn(parts[0].unit) + Seconds(parts[1..])
  }

  // ---------------------------------------------------------------- reading the text back

  function UnitOf(text: string): Unit {
    if text == "\U{5929}" then Day
    else if text == "\U{5C0F}\U{65F6}" then Hour
    else if text == "\U{5206}\U{949F}" then Minute
    else Second
  }

  /** Amounts and units in turn. */
  function ReadWords(words: seq<string>): int {
    if |words| < 2 then 0
    else DecimalValue(words[0]) * SecondsIn(UnitOf(words[1])) + ReadWords(words[2..])
  }

  function Read(text: string): int {
    ReadWords(Split(text, ' '))
  }

  function Words(parts: seq<Part>): seq<string> {
    if parts == [] then [] else [Decimal(parts[0].amount), UnitText(parts[0].unit)] + Words(parts[1..])
  }

  lemma UnitReads(u: Unit)
    ensures UnitOf(UnitText(u)) == u && ' ' !in UnitText(u)
  {
    assert DAY_TEXT[0] != HOUR_TEXT[0] && DAY_TEXT[0] != MINUTE_TEXT[0] && DAY_TEXT[0] != SECOND_TEXT[0];
    assert HOUR_TEXT[0] != MINUTE_TEXT[0] && HOUR_TEXT[0] != SECOND_TEXT[0] && MINUTE_TEXT[0] != SECOND_TEXT[0];
  }

  lemma {:induction false} WordsRead(parts: seq<Part>)
    ensures ReadWords(Words(parts)) == Seconds(parts)
    ensures forall w :: w in Words(parts) ==> ' ' !in w
  {
    if parts != [] {
      var words := Words(parts);
      DecimalReads(parts[0].amount);
      DecimalDigits(parts[0].amount);
      UnitReads(parts[0].unit);
      WordsRead(parts[1..]);
      assert words[2..] == Words(parts[1..]);
    }
  }

  /** Joining the part texts or the words comes to the same. */
  lemma {:induction false} JoinedAlike(parts: seq<Part>)
    ensures Join(PartTexts(parts), " ") == Join(Words(parts), " ")
  {
    if |parts| == 1 {
      var p := parts[0];
      assert PartTexts(parts[1..]) == [] && Words(parts[1..]) == [];
      assert PartTexts(parts) == [PartText(p)] && Words(parts) == [Decimal(p.amount), UnitText(p.unit)];
      assert [Decimal(p.amount), UnitText(p.unit)][1..] == [UnitText(p.unit)];
    } else if |parts| > 1 {
      var p, rest := parts[0], parts[1..];
      JoinedAlike(rest);
      JoinPair(Decimal(p.amount), UnitText(p.unit), Words(rest));
      assert PartTexts(parts)[1..] == PartTexts(rest);
    }
  }

  lemma JoinPair(a: string, b: string, words: seq<string>)
    requires words != []
    ensures Join([a, b] + words, " ") == (a + " " + b) + " " + Join(words, " ")
  {
    var all := [a, b] + words;
    assert all[1..] == [b] + words && all[1..][1..] == words;
    assert Join(all[1..], " ") == b + " " + Join(words, " ");
    assert a + " " + (b + " " + Join(words, " ")) == (a + " " + b) + " " + Join(words, " ");
  }

  lemma RenderedReads(parts: seq<Part>)
    requires parts != []
    ensures Read(Join(PartTexts(parts), " ")) == Seconds(parts)
  {
    JoinedAlike(parts);
    WordsRead(parts);
    SplitJoin(Words(parts), ' ');
  }

  // ---------------------------------------------------------------- the printer

  /** Days, hours, minutes and seconds with floored division: only the days can be negative. */
  function PartsOf(seconds: int): seq<Part> {
    var rem := seconds % 86400;
    NonZero(seconds / 86400, Day) + NonZero(rem / 3600, Hour)
    + NonZero(rem % 3600 / 60, Minute) + NonZero(rem % 60, Second)
  }

  function NonZero(amount: int, u: Unit): seq<Part> {
    if amount != 0 then [Part(amount, u)] else []
  }

  lemma {:induction false} SecondsAdd(a: seq<Part>, b: seq<Part>)
    ensures Seconds(a + b) == Seconds(a) + Seconds(b)
  {
    if a == [] {
      assert a + b == b;
    } else {
      SecondsAdd(a[1..], b);
      assert (a + b)[1..] == a[1..] + b;
    }
  }

  lemma NonZeroSeconds(amount: int, u: Unit)
    ensures Seconds(NonZero(amount, u)) == amount * SecondsIn(u)
  {
    assert [Part(amount, u)][1..] == [];
  }

  /** Days, hours, minutes and seconds of a number of seconds, counted in seconds. */
  lemma InUnits(seconds: int, rem: int)
    requires rem == seconds % 86400
    ensures seconds == 86400 * (seconds / 86400) + 3600 * (rem / 3600) + 60 * (rem % 3600 / 60) + rem % 60
  {
    assert rem % 3600 % 60 == rem % 60;
  }

  lemma FourPartsAddUp(d: int, h: int, m: int, s: int)
    ensures Seconds(NonZero(d, Day) + NonZero(h, Hour) + NonZero(m, Minute) + NonZero(s, Second))
         == 86400 * d + 3600 * h + 60 * m + s
  {
    var days, hours, minutes, rest := NonZero(d, Day), NonZero(h, Hour), NonZero(m, Minute), NonZero(s, Second);
    SecondsAdd(days + hours + minutes, rest);
    SecondsAdd(days + hours, minutes);
    SecondsAdd(days, hours);
    NonZeroSeconds(d, Day);
    NonZeroSeconds(h, Hour);
    NonZeroSeconds(m, Minute);
    NonZeroSeconds(s, Second);
  }

  /** The parts add up to the duration, for negative ones too. */
  lemma PartsAddUp(seconds: int)
    ensures Seconds(PartsOf(seconds)) == seconds
  {
    var rem := seconds % 86400;
    InUnits(seconds, rem);
    FourPartsAddUp(seconds / 86400, rem / 3600, rem % 3600 / 60, rem % 60);
  }

  predicate Before(u: Unit, v: Unit) {
    SecondsIn(u) > SecondsIn(v)
  }

  /** Larger units first, no part without an amount, and no more of a unit than the next larger one has. */
  predicate IsNormal(parts: seq<Part>) {
    && (forall i, j :: 0 <= i < j < |parts| ==> Before(parts[i].unit, parts[j].unit))
    && (forall p :: p in parts ==> p.amount != 0)
    && (forall p :: p in parts && p.unit.Hour? ==> 0 < p.amount < 24)
    && (forall p :: p in parts && (p.unit.Minute? || p.unit.Second?) ==> 0 < p.amount < 60)
  }

  lemma PartsAreNormal(seconds: int)
    ensures IsNormal(PartsOf(seconds))
  {
  }

  lemma NormalTail(parts: seq<Part>)
    requires IsNormal(parts) && parts != []
    ensures IsNormal(parts[1..])
    ensures forall p :: p in parts[1..] ==> Before(parts[0].unit, p.unit)
  {
    var rest := parts[1..];
    assert forall i :: 0 <= i < |rest| ==> rest[i] == parts[i + 1];
  }

  /** Smaller units never add up to one of the larger unit. */
  lemma {:induction false} LessThanUnit(parts: seq<Part>, u: Unit)
    requires IsNormal(parts) && forall p :: p in parts ==> Before(u, p.unit)
    ensures 0 <= Seconds(parts) < SecondsIn(u)
    decreases |parts|
  {
    if parts != [] {
      NormalTail(parts);
      LessThanUnit(parts[1..], parts[0].unit);
      assert parts[0] in parts;
    }
  }

  lemma HeadAmount(parts: seq<Part>)
    requires IsNormal(parts) && parts != []
    ensures var p := parts[0];
            Seconds(parts) == p.amount * SecondsIn(p.unit) + Seconds(parts[1..]) && p.amount != 0
            && 0 <= Seconds(parts[1..]) < SecondsIn(p.unit)
  {
    NormalTail(parts);
    LessThanUnit(parts[1..], parts[0].unit);
    assert parts[0] in parts;
  }

  lemma NotWithinUnit(parts: seq<Part>)
    requires IsNormal(parts) && parts != []
    ensures !(0 <= Seconds(parts) < SecondsIn(parts[0].unit))
  {
    HeadAmount(parts);
  }

  /** A duration has one normal form, so PartsAreNormal and PartsAddUp leave no choice. */
  lemma {:induction false} OneNormalForm(a: seq<Part>, b: seq<Part>)
    requires IsNormal(a) && IsNormal(b) && Seconds(a) == Seconds(b)
    ensures a == b
    decreases |a|
  {
    if a == [] || b == [] {
      if a != [] { NotWithinUnit(a); }
      if b != [] { NotWithinUnit(b); }
    } else {
      NormalTail(a);
      NormalTail(b);
      HeadUnits(a, b);
      HeadUnits(b, a);
      HeadAmount(a);
      HeadAmount(b);
      SameQuotient(a[0].unit, a[0].amount, Seconds(a[1..]), b[0].amount, Seconds(b[1..]));
      OneNormalForm(a[1..], b[1..]);
      assert a == [a[0]] + a[1..] && b == [b[0]] + b[1..];
    }
  }

  lemma HeadUnits(a: seq<Part>, b: seq<Part>)
    requires IsNormal(a) && IsNormal(b) && a != [] && b != [] && Seconds(a) == Seconds(b)
    ensures !Before(a[0].unit, b[0].unit)
  {
    NotWithinUnit(a);
    NormalTail(b);
    if Before(a[0].unit, b[0].unit) {
      LessThanUnit(b, a[0].unit);
    }
  }

  lemma SameQuotient(u: Unit, m: int, r: int, n: int, q: int)
    requires 0 <= r < SecondsIn(u) && 0 <= q < SecondsIn(u) && m * SecondsIn(u) + r == n * SecondsIn(u) + q
    ensures m == n && r == q
  {
    match u
    case Day => assert m * 86400 + r == n * 86400 + q;
    case Hour => assert m * 3600 + r == n * 3600 + q;
    case Minute => assert m * 60 + r == n * 60 + q;
    case Second => assert m * 1 + r == n * 1 + q;
  }

  function Rendered(seconds: int): string {
    var parts := PartsOf(seconds);
    Join(PartTexts(if parts == [] then [Part(0, Second)] else parts), " ")
  }

  /** Nothing is lost: the text reads back as the duration it was printed for. */
  lemma RenderedIsReadBack(seconds: int)
    ensures Read(Rendered(seconds)) == seconds
  {
    var parts := PartsOf(seconds);
    PartsAddUp(seconds);
    if parts == [] {
      RenderedReads([Part(0, Second)]);
      assert [Part(0, Second)][1..] == [];
    } else {
      RenderedReads(parts);
    }
  }

  /** No duration at all is printed as no seconds, not as nothing. */
  lemma NoDuration()
    ensures Rendered(0) == "0 \U{79D2}"
  {
    ZeroText();
  }

  lemma DistinctDurationsPrintDistinctly(a: int, b: int)
    ensures Rendered(a) == Rendered(b) ==> a == b
  {
    RenderedIsReadBack(a);
    RenderedIsReadBack(b);
  }

  /** Appends the text of an amount unless it is zero. */
  method AppendUnlessZero(texts: seq<string>, ghost parts: seq<Part>, amount: int, u: Unit)
    returns (appended: seq<string>)
    requires texts == PartTexts(parts)
    ensures appended == PartTexts(parts + NonZero(amount, u))
  {
    appended := texts;
    if amount != 0 {
      appended := appended + [PartText(Part(amount, u))];
    }
  }

  method FmtSeconds(seconds: int) returns (text: string)
    ensures text == Rendered(seconds)
    ensures Read(text) == seconds
  {
    var days, rem := seconds / 86400, seconds % 86400;
    var hours, rest := rem / 3600, rem % 3600;
    var minutes, secs := rest / 60, rest % 60;
    assert secs == rem % 60;

    var texts := AppendUnlessZero([], [], days, Day);
    ghost var parts := [] + NonZero(days, Day);
    texts := AppendUnlessZero(texts, parts, hours, Hour);
    parts := parts + NonZero(hours, Hour);
    texts := AppendUnlessZero(texts, parts, minutes, Minute);
    parts := parts + NonZero(minutes, Minute);
    texts := AppendUnlessZero(texts, parts, secs, Second);
    parts := parts + NonZero(secs, Second);
    assert parts == PartsOf(seconds);
    RenderedIsReadBack(seconds);
    if texts != [] {
      text := Join(texts, " ");
    } else {
      text := "0 " + SECOND_TEXT;
      ZeroText();
    }
  }

  lemma ZeroText()
    ensures Join(PartTexts([Part(0, Second)]), " ") == "0 " + SECOND_TEXT
  {
    assert Decimal(0) == "0";
    assert PartText(Part(0, Second)) == "0" + " " + SECOND_TEXT;
    assert PartTexts([Part(0, Second)]) == [PartText(Part(0, Second))];
  }
}
