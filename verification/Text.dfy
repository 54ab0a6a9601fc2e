/** String operations of the source language, on sequences of characters. */
module Text {
  import opened Prelude

  /** What str.strip and the regular-expression class \s take for white space. */
  predicate IsSpace(c: char) {
    var u := c as int;
    || 9 <= u <= 13 || 28 <= u <= 32 || u == 0x85 || u == 0xA0 || u == 0x1680
    || 0x2000 <= u <= 0x200A || u == 0x2028 || u == 0x2029 || u == 0x202F || u == 0x205F || u == 0x3000
  }

  function TrimLeft(s: string, drop: char -> bool): string {
    if s != "" && drop(s[0]) then TrimLeft(s[1..], drop) else s
  }

  function TrimRight(s: string, drop: char -> bool): string {
    if s != "" && drop(s[|s| - 1]) then TrimRight(s[..|s| - 1], drop) else s
  }

  function Trim(s: string, drop: char -> bool): string {
    TrimRight(TrimLeft(s, drop), drop)
  }

  function Strip(s: string): string {
    Trim(s, IsSpace)
  }

  lemma {:induction false} TrimLeftIs(s: string, drop: char -> bool) returns (front: string)
    ensures s == front + TrimLeft(s, drop) && forall c :: c in front ==> drop(c)
    ensures TrimLeft(s, drop) == "" || !drop(TrimLeft(s, drop)[0])
  {
    if s != "" && drop(s[0]) {
      var rest := TrimLeftIs(s[1..], drop);
      front := [s[0]] + rest;
    } else {
      front := "";
    }
  }

  lemma {:induction false} TrimRightIs(s: string, drop: char -> bool) returns (back: string)
    ensures s == TrimRight(s, drop) + back && forall c :: c in back ==> drop(c)
    ensures TrimRight(s, drop) == "" || !drop(TrimRight(s, drop)[|TrimRight(s, drop)| - 1])
  {
    if s != "" && drop(s[|s| - 1]) {
      var rest := TrimRightIs(s[..|s| - 1], drop);
      back := rest + [s[|s| - 1]];
    } else {
      back := "";
    }
  }

  /** Trimming cuts a stretch of dropped characters off either end, and as much of them as there is. */
  lemma TrimIs(s: string, drop: char -> bool) returns (front: string, back: string)
    ensures s == front + Trim(s, drop) + back
    ensures (forall c :: c in front ==> drop(c)) && (forall c :: c in back ==> drop(c))
    ensures var t := Trim(s, drop); t == "" || (!drop(t[0]) && !drop(t[|t| - 1]))
  {
    front := TrimLeftIs(s, drop);
    back := TrimRightIs(TrimLeft(s, drop), drop);
    assert front + (Trim(s, drop) + back) == front + Trim(s, drop) + back;
    assert Trim(s, drop) != "" ==> Trim(s, drop)[0] == TrimLeft(s, drop)[0];
  }

  lemma TrimKeeps(s: string, drop: char -> bool)
    requires s != "" && !drop(s[0]) && !drop(s[|s| - 1])
    ensures Trim(s, drop) == s
  {
  }

  lemma SliceOfSlice(s: string, lo: nat, hi: nat, a: nat, b: nat)
    requires lo <= hi <= |s| && a <= b <= hi - lo
    ensures s[lo..hi][a..b] == s[lo + a..lo + b]
  {
    forall k | 0 <= k < b - a ensures s[lo..hi][a..b][k] == s[lo + a..lo + b][k] {}
  }

  lemma TakeDrop(s: string, n: nat)
    requires 0 < n <= |s|
    ensures s[..n][0] == s[0] && s[..n][1..] == s[1..][..n - 1]
  {
  }

  function LowerAscii(s: string): (r: string)
    ensures |r| == |s|
  {
    seq(|s|, i requires 0 <= i < |s| => if 'A' <= s[i] <= 'Z' then (s[i] as int + 32) as char else s[i])
  }

  predicate EndsWith(s: string, suffix: string) {
    |s| >= |suffix| && s[|s| - |suffix|..] == suffix
  }

  function RemoveSuffix(s: string, suffix: string): string {
    if EndsWith(s, suffix) then s[..|s| - |suffix|] else s
  }

  function Without(s: string, drop: set<char>): string {
    if s == "" then ""
    else (if s[0] in drop then "" else [s[0]]) + Without(s[1..], drop)
  }

  lemma {:induction false} WithoutNothing(s: string, drop: set<char>)
    requires forall c :: c in s ==> c !in drop
    ensures Without(s, drop) == s
  {
    if s != "" { WithoutNothing(s[1..], drop); }
  }

  /** Character by character: the ones in the set are dropped and the others kept in their order. */
  lemma {:induction false} WithoutAppend(s: string, c: char, drop: set<char>)
    ensures Without("", drop) == ""
    ensures Without(s + [c], drop) == Without(s, drop) + (if c in drop then "" else [c])
  {
    if s != "" {
      WithoutAppend(s[1..], c, drop);
      assert (s + [c])[1..] == s[1..] + [c];
    }
  }

  lemma {:induction false} WithoutDrops(s: string, drop: set<char>)
    ensures forall c :: c in Without(s, drop) ==> c in s && c !in drop
  {
    if s != "" { WithoutDrops(s[1..], drop); }
  }

  /** The part of a string before the first character of a set; all of it when there is none. */
  function Before(s: string, stops: set<char>): (head: string)
    ensures |head| <= |s| && s[..|head|] == head
    ensures forall c :: c in head ==> c !in stops
    ensures |head| < |s| ==> s[|head|] in stops
  {
    if s == "" || s[0] in stops then "" else [s[0]] + Before(s[1..], stops)
  }

  lemma {:induction false} BeforeIs(head: string, tail: string, stops: set<char>)
    requires forall c :: c in head ==> c !in stops
    requires tail != "" ==> tail[0] in stops
    ensures Before(head + tail, stops) == head
  {
    if head == "" {
      assert head + tail == tail;
    } else {
      BeforeIs(head[1..], tail, stops);
      assert (head + tail)[1..] == head[1..] + tail;
    }
  }

  /** Text cut at the first separator: both parts are determined. */
  lemma CutUnique(a: string, b: string, a': string, b': string, sep: char)
    requires sep !in a && sep !in a' && a + ([sep] + b) == a' + ([sep] + b')
    ensures a == a' && b == b'
  {
    BeforeIs(a, [sep] + b, {sep});
    BeforeIs(a', [sep] + b', {sep});
    assert (a + ([sep] + b))[|a| + 1..] == b;
    assert (a' + ([sep] + b'))[|a'| + 1..] == b';
  }

  /** str.split on one character. */
  function Split(s: string, sep: char): (parts: seq<string>)
    ensures parts != []
    decreases |s|
  {
    var head := Before(s, {sep});
    if |head| == |s| then [s] else [head] + Split(s[|head| + 1..], sep)
  }

  function Join(parts: seq<string>, sep: string): string {
    if parts == [] then ""
    else if |parts| == 1 then parts[0]
    else parts[0] + sep + Join(parts[1..], sep)
  }

  lemma SplitFirst(head: string, rest: string, sep: char)
    requires sep !in head
    ensures Split(head + [sep] + rest, sep) == [head] + Split(rest, sep)
  {
    var s := head + [sep] + rest;
    assert s == head + ([sep] + rest);
    BeforeIs(head, [sep] + rest, {sep});
    assert s[|head| + 1..] == rest;
  }

  lemma SplitWhole(s: string, sep: char)
    requires sep !in s
    ensures Split(s, sep) == [s]
  {
    assert s + "" == s;
    BeforeIs(s, "", {sep});
  }

  lemma {:induction false} SplitJoin(parts: seq<string>, sep: char)
    requires parts != [] && forall p :: p in parts ==> sep !in p
    ensures Split(Join(parts, [sep]), sep) == parts
  {
    assert parts[0] in parts;
    if |parts| == 1 {
      SplitWhole(parts[0], sep);
    } else {
      SplitFirst(parts[0], Join(parts[1..], [sep]), sep);
      assert forall p :: p in parts[1..] ==> p in parts;
      SplitJoin(parts[1..], sep);
    }
  }

  /** A stretch of the text between two separators, or between a separator and an end of the text. */
  ghost predicate IsItem(text: string, sep: char, item: string) {
    exists i, j :: 0 <= i <= j <= |text| && IsItemAt(text, sep, item, i, j)
  }

  predicate IsItemAt(text: string, sep: char, item: string, i: nat, j: nat)
    requires i <= j <= |text|
  {
    && text[i..j] == item && sep !in item
    && (i == 0 || text[i - 1] == sep) && (j == |text| || text[j] == sep)
  }

  lemma ItemBehind(text: string, at: nat, sep: char, item: string)
    requires 0 < at <= |text| && text[at - 1] == sep && IsItem(text[at..], sep, item)
    ensures IsItem(text, sep, item)
  {
    var rest := text[at..];
    var i, j :| 0 <= i <= j <= |rest| && IsItemAt(rest, sep, item, i, j);
    assert rest[i..j] == text[at + i..at + j];
    assert IsItemAt(text, sep, item, at + i, at + j);
  }

  lemma ItemIsOneOf(text: string, at: nat, sep: char, item: string)
    requires 0 < at <= |text| && text[at - 1] == sep && forall k :: 0 <= k < at - 1 ==> text[k] != sep
    requires IsItem(text, sep, item)
    ensures item == text[..at - 1] || IsItem(text[at..], sep, item)
  {
    var i, j :| 0 <= i <= j <= |text| && IsItemAt(text, sep, item, i, j);
    if i == 0 {
      ItemEnds(text, sep, item, j, at - 1);
    } else {
      var a, b := i - at, j - at;
      assert text[at..][a..b] == text[i..j];
      assert IsItemAt(text[at..], sep, item, a, b);
    }
  }

  lemma ItemEnds(text: string, sep: char, item: string, j: nat, k: nat)
    requires j <= |text| && IsItemAt(text, sep, item, 0, j)
    requires k < |text| && text[k] == sep && forall m :: 0 <= m < k ==> text[m] != sep
    ensures j == k
  {
    assert forall m :: 0 <= m < j ==> text[m] in text[0..j];
  }

  /** Splitting finds exactly the items. */
  lemma {:induction false} SplitItems(text: string, sep: char, item: string)
    ensures item in Split(text, sep) <==> IsItem(text, sep, item)
    decreases |text|
  {
    var head := Before(text, {sep});
    assert forall k :: 0 <= k < |head| ==> text[k] == head[k] && head[k] in head;
    if |head| == |text| {
      OnlyItem(text, sep, item);
    } else {
      var at := |head| + 1;
      SplitItems(text[at..], sep, item);
      assert IsItemAt(text, sep, head, 0, |head|);
      if IsItem(text[at..], sep, item) {
        ItemBehind(text, at, sep, item);
      }
      if IsItem(text, sep, item) {
        ItemIsOneOf(text, at, sep, item);
      }
    }
  }

  lemma OnlyItem(text: string, sep: char, item: string)
    requires forall k :: 0 <= k < |text| ==> text[k] != sep
    ensures IsItem(text, sep, item) <==> item == text
  {
    assert text[0..|text|] == text;
    assert sep !in text;
    if item == text {
      assert IsItemAt(text, sep, item, 0, |text|);
    }
    if IsItem(text, sep, item) {
      var i, j :| 0 <= i <= j <= |text| && IsItemAt(text, sep, item, i, j);
      assert i == 0 && j == |text|;
    }
  }

  // ---------------------------------------------------------------- decimal numbers

  function Digit(d: nat): char
    requires d < 10
  {
    "0123456789"[d]
  }

  function DigitValue(c: char): nat {
    if '0' <= c <= '9' then c as int - '0' as int else 0
  }

  function Natural(n: nat): (s: string)
    ensures s != ""
  {
    if n < 10 then [Digit(n)] else Natural(n / 10) + [Digit(n % 10)]
  }

  /** How an integer is printed. */
  function Decimal(n: int): string {
    if n < 0 then "-" + Natural(-n) else Natural(n)
  }

  function NaturalValue(s: string): nat {
    if s == "" then 0 else 10 * NaturalValue(s[..|s| - 1]) + DigitValue(s[|s| - 1])
  }

  function DecimalValue(s: string): int {
    if s != "" && s[0] == '-' then 0 - NaturalValue(s[1..]) else NaturalValue(s)
  }

  lemma {:induction false} NaturalReads(n: nat)
    ensures NaturalValue(Natural(n)) == n
  {
    if n >= 10 {
      NaturalReads(n / 10);
      assert Natural(n)[..|Natural(n)| - 1] == Natural(n / 10);
    }
  }

  lemma NegativeReads(digits: string)
    ensures DecimalValue("-" + digits) == 0 - NaturalValue(digits)
  {
    var s := "-" + digits;
    assert s[1..] == digits;
  }

  lemma PositiveReads(digits: string)
    requires digits != "" && digits[0] != '-'
    ensures DecimalValue(digits) == NaturalValue(digits)
  {
  }

  lemma {:induction false} NaturalDigits(n: nat)
    ensures forall c :: c in Natural(n) ==> '0' <= c <= '9'
    ensures Natural(n)[0] != '-'
  {
    if n >= 10 { NaturalDigits(n / 10); }
  }

  /** No digit too many. */
  lemma {:induction false} NaturalIsShort(n: nat)
    ensures if n < 10 then |Natural(n)| == 1 else Natural(n)[0] != '0'
  {
    if n >= 10 {
      NaturalIsShort(n / 10);
      assert Natural(n)[0] == Natural(n / 10)[0];
      if n < 100 {
        assert Natural(n / 10) == [Digit(n / 10)];
      }
    }
  }

  lemma DecimalDigits(n: int)
    ensures Decimal(n) != "" && forall c :: c in Decimal(n) ==> '0' <= c <= '9' || c == '-'
  {
    if n < 0 { NaturalDigits(-n); } else { NaturalDigits(n); }
  }

  lemma ReadsDigits(digits: string, m: nat)
    requires digits != "" && digits[0] != '-' && NaturalValue(digits) == m
    ensures DecimalValue(digits) == m && DecimalValue("-" + digits) == 0 - m
  {
    PositiveReads(digits);
    NegativeReads(digits);
  }

  lemma DecimalReads(n: int)
    ensures DecimalValue(Decimal(n)) == n
  {
    var m := if n < 0 then -n else n;
    NaturalReads(m);
    NaturalDigits(m);
    ReadsDigits(Natural(m), m);
  }
}
